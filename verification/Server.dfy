/** The loops at both ends of a connection: the C server's, and the client's two. */
module Server {
  import opened Prelude
  import opened Streams
  import opened Pipeline
  import opened PipelineSteps
  import opened PipelineRuns
  import opened ReadBuffer

  /** A descriptor the server reads from. A read returns some of the bytes, an error, or, when there are
      no more, EOF; it is interrupted `patience` times at most. */
  class Source {
    var data: seq<Byte>
    var patience: nat
    var failed: bool          // a read has ended with an error

    constructor (data: seq<Byte>, patience: nat)
      ensures this.data == data && !failed
    {
      this.data, this.patience, failed := data, patience, false;
    }

    method Read(count: nat) returns (ret: int, got: seq<Byte>)
      requires count > 0
      modifies this
      ensures ret > 0 ==> ret <= count && |got| == ret && old(data) == got + data && patience == old(patience)
      ensures ret <= 0 ==> got == [] && data == old(data) && patience <= old(patience)
      ensures ret == 0 ==> data == []
      ensures ret == -EINTR ==> patience < old(patience)
      ensures failed <==> old(failed) || (ret < 0 && ret != -EINTR)
    {
      var n: int := *;
      ret, got := 0, [];
      if 0 < n <= count && n <= |data| {
        ret, got, data := n, data[..n], data[n..];
      } else if n == -EINTR && patience > 0 {
        ret, patience := n, patience - 1;
      } else if n != 0 || data != [] {
        ret, failed := if n < 0 && n != -EINTR then n else -1, true;
      }
    }
  }

  /** 1 when a whole request was read, 0 when the input is at its end, else the error. No byte is lost or
      read twice. */
  method ReadRequest(infd: Source) returns (ret: int, request: Record)
    modifies infd
    ensures old(infd.data) == request + infd.data && |request| <= REQUEST
    ensures ret == 1 <==> |request| == REQUEST
    ensures ret == 0 ==> infd.data == []
    ensures infd.failed <==> old(infd.failed) || ret < 0
    ensures ret <= 1
  {
    var remaining: nat := REQUEST;
    request := [];
    while remaining > 0
      invariant |request| + remaining == REQUEST && old(infd.data) == request + infd.data
      invariant infd.failed == old(infd.failed)
      decreases remaining, infd.patience
    {
      var got;
      ret, got := infd.Read(remaining);
      if ret == -EINTR { continue; }
      if ret < 0 { return; }
      if ret == 0 { return 0, request; }
      remaining, request := remaining - ret, request + got;
    }
    ret := 1;
  }

  /** 1 when the whole response was written, else the error. */
  method WriteResponse(outfd: Sink, response: Record) returns (ret: int, ghost n: nat)
    requires |response| == RESPONSE
    modifies outfd
    ensures n <= RESPONSE && outfd.data == old(outfd.data) + response[..n]
    ensures ret == 1 <==> n == RESPONSE
    ensures outfd.broken <==> old(outfd.broken) || ret < 0
    ensures ret < 0 || ret == 1
  {
    var data, remaining: nat := response, RESPONSE;
    n := 0;
    while remaining > 0
      invariant n + remaining == RESPONSE && data == response[n..] && outfd.data == old(outfd.data) + response[..n]
      invariant outfd.broken == old(outfd.broken)
      decreases remaining, outfd.patience, outfd.interrupts
    {
      ret := outfd.Write(data);
      if ret == -EINTR { continue; }
      if ret < 0 { return; }
      assert response[..n + ret] == response[..n] + data[..ret];
      remaining, data, n := remaining - ret, data[ret..], n + ret;
    }
    ret := 1;
  }

  /** The serving loop. The kernel's answer to a request depends on everything performed so far.
      Requests are cut off the input in order, performed once each, and answered in order. It ends only
      at the end of the input, with every whole request in it performed and answered, or on an error,
      with at most the last answer incomplete. */
  method RsyscallServer(infd: Source, outfd: Sink, kernel: seq<Record> -> Record)
    returns (ret: int, ghost executed: seq<Record>, ghost results: seq<Record>, ghost partial: Record,
            ghost unwritten: seq<Byte>)
    requires forall h :: |kernel(h)| == RESPONSE
    modifies infd, outfd
    ensures ret <= 0 && Served(kernel, executed, results) && |partial| < REQUEST
    ensures old(infd.data) == Stream(executed) + partial + infd.data
    ensures outfd.data + unwritten == old(outfd.data) + Stream(results) && |unwritten| <= RESPONSE
    ensures unwritten != [] ==> partial == []
    ensures ret == 0 ==> infd.data == [] && unwritten == [] && |executed| == |old(infd.data)| / REQUEST
    ensures !old(infd.failed) && !old(outfd.broken) ==> (ret < 0 <==> infd.failed || outfd.broken)
  {
    executed, results, partial, unwritten := [], [], [], [];
    var history: seq<Record> := [];
    assert infd.data == Stream(executed) + infd.data && outfd.data == outfd.data + Stream(results);
    assert Served(kernel, executed, results);
    hide Stream, Served;
    while true
      invariant history == executed && Served(kernel, executed, results) && partial == [] && unwritten == []
      invariant old(infd.data) == Stream(executed) + infd.data && outfd.data == old(outfd.data) + Stream(results)
      invariant infd.failed == old(infd.failed) && outfd.broken == old(outfd.broken)
      decreases |infd.data|
    {
      var request;
      ghost var performed, n;
      ret, request, performed, n := ServeOne(infd, outfd, kernel, history);
      Assoc(Stream(executed), request, infd.data);
      if performed {
        ServedOneMore(kernel, executed, results, request);
        Assoc(old(outfd.data), Stream(results), kernel(history + [request])[..n]);
        Assoc(Stream(results), kernel(history + [request])[..n], kernel(history + [request])[n..]);
        Assoc(old(outfd.data), Stream(results) + kernel(history + [request])[..n], kernel(history + [request])[n..]);
        executed, results := executed + [request], results + [kernel(history + [request])];
      }
      if ret <= 0 {
        if performed {
          unwritten := kernel(executed)[n..];
          assert kernel(executed) == kernel(executed)[..n] + unwritten;
        } else {
          partial := request;
          if ret == 0 { AllServed(kernel, executed, results, partial, infd.data, old(infd.data)); }
        }
        return;
      }
      assert kernel(executed)[..n] == kernel(executed);
      history := history + [request];
    }
  }

  /** At the end of the input, as many requests were performed as it held. */
  lemma {:induction false} AllServed(kernel: seq<Record> -> Record, executed: seq<Record>, results: seq<Record>,
      partial: Record, rest: seq<Byte>, input: seq<Byte>)
    requires Served(kernel, executed, results) && |partial| < REQUEST && rest == []
    requires input == Stream(executed) + (partial + rest)
    ensures |executed| == |input| / REQUEST
  {
    StreamLength(executed, REQUEST);
  }

  lemma {:induction false} Assoc(a: seq<Byte>, b: seq<Byte>, c: seq<Byte>)
    ensures a + (b + c) == (a + b) + c
  {
  }

  /** One turn of the loop: read, perform, respond. */
  method ServeOne(infd: Source, outfd: Sink, kernel: seq<Record> -> Record, history: seq<Record>)
    returns (ret: int, request: Record, ghost performed: bool, ghost n: nat)
    requires forall h :: |kernel(h)| == RESPONSE
    modifies infd, outfd
    ensures old(infd.data) == request + infd.data && |request| <= REQUEST && (performed <==> |request| == REQUEST)
    ensures !performed ==> ret <= 0 && outfd.data == old(outfd.data)
    ensures performed ==>
              n <= RESPONSE && outfd.data == old(outfd.data) + kernel(history + [request])[..n]
              && (ret > 0 <==> n == RESPONSE) && ret != 0
    ensures ret == 0 ==> infd.data == []
    ensures infd.failed <==> old(infd.failed) || (!performed && ret < 0)
    ensures outfd.broken <==> old(outfd.broken) || (performed && ret < 0)
  {
    performed, n := false, 0;
    ret, request := ReadRequest(infd);
    if ret <= 0 { return; }
    performed := true;
    ret, n := WriteResponse(outfd, kernel(history + [request]));
  }

  /** The kernel's answers to a history of requests. */
  ghost predicate Served(kernel: seq<Record> -> Record, executed: seq<Record>, results: seq<Record>) {
    && Sized(executed, REQUEST) && |results| == |executed|
    && forall i :: 0 <= i < |results| ==> results[i] == kernel(executed[..i + 1])
  }

  lemma {:induction false} ServedOneMore(kernel: seq<Record> -> Record, executed: seq<Record>, results: seq<Record>,
      request: Record)
    requires Served(kernel, executed, results) && |request| == REQUEST
    ensures var history := executed + [request];
            && Served(kernel, history, results + [kernel(history)])
            && Stream(history) == Stream(executed) + request
                && Stream(results + [kernel(history)]) == Stream(results) + kernel(history)
  {
    var history := executed + [request];
    StreamOne(executed, request);
    StreamOne(results, kernel(history));
    forall i | 0 <= i < |results| ensures results[i] == kernel(history[..i + 1]) {
      assert history[..i + 1] == executed[..i + 1];
    }
    assert history[..|history|] == history;
  }

  // ---------------------------------------------------------------- the client's loops

  /** What `_run_requests` works on, with the state of the protocol it is part of. */
  class RequestLoop {
    const tofd: Sink
    var requests: seq<(nat, Record)>
    var forwarded: seq<nat>                 // handed to the response queue
    var outcomes: map<int, Outcome>
    ghost var model: State

    ghost predicate Valid()
      reads this, tofd
    {
      && Inv(model) && model.batch == [] && model.waiting == Ids(requests) && Holds(model, requests)
      && model.sent == forwarded && model.outcomes == outcomes && model.written == tofd.data
          && model.broken == tofd.broken
      && tofd.interrupts == 0
    }

    constructor (tofd: Sink)
      requires tofd.data == [] && !tofd.broken && tofd.interrupts == 0
      ensures Valid() && this.tofd == tofd && requests == []
    {
      this.tofd, requests, forwarded, outcomes, model := tofd, [], [], map[], Start;
      new;
      StartIsOk();
    }

    /** A new request, identified by its position. */
    method Request(r: Record, id: nat)
      requires Valid() && |r| == REQUEST && id == |model.accepted|
      modifies this
      ensures Valid() && model == Apply(old(model), Pipeline.Request(r)) && requests == old(requests) + [(id, r)]
    {
      StepKeeps(model, Pipeline.Request(r));
      hide Inv;
      requests, model := requests + [(id, r)], Apply(model, Pipeline.Request(r));
    }

    /** One turn of `_run_requests`: all that wait, in one batch, over partial writes. All its requests
        are forwarded, or all get a SyscallSendError. */
    method SendBatch() returns (ok: bool)
      requires Valid() && requests != []
      modifies this, tofd
      ensures Valid() && requests == [] && Reaches(old(model), model) && (ok <==> !model.broken)
      ensures ok ==> forwarded == old(forwarded) + Ids(old(requests)) && outcomes == old(outcomes)
      ensures !ok ==> forwarded == old(forwarded) && outcomes == Settle(old(outcomes), Ids(old(requests)), SendError)
    {
      hide Inv, Reaches, Bytes, Settle;
      var batch := TakeBatch();
      ok := WriteBatch(batch, old(model));
      if ok {
        Moves(old(model), model, Forward);
        forwarded, model := forwarded + Ids(batch), Apply(model, Forward);
      } else {
        Moves(old(model), model, WriteFails);
        outcomes, model := Settle(outcomes, Ids(batch), SendError), Apply(model, WriteFails);
      }
    }

    /** A batch is being sent; `ptr` is still to be written. */
    ghost predicate Sending(batch: seq<(nat, Record)>, ptr: seq<Byte>, from: State)
      reads this, tofd
    {
      && Inv(model) && model.batch == Ids(batch) && batch != [] && model.unsent == ptr && model.waiting == []
          && requests == []
      && model.sent == forwarded && model.outcomes == outcomes && model.written == tofd.data && tofd.interrupts == 0
      && Reaches(from, model)
    }

    /** `get_many`. */
    method TakeBatch() returns (batch: seq<(nat, Record)>)
      requires Valid() && requests != []
      modifies this`requests, this`model
      ensures batch == old(requests) && Sending(batch, Stream(Records(batch)), old(model))
              && model.broken == tofd.broken
    {
      batch := requests;
      Stays(model);
      hide Inv, Reaches;
      BytesAre(model, batch);
      Moves(model, model, GetMany(|batch|));
      assert model.waiting[..|batch|] == Ids(batch) && model.waiting[|batch|..] == [];
      hide Bytes;
      requests, model := [], Apply(model, GetMany(|batch|));
    }

    /** The loop over partial writes. */
    method WriteBatch(batch: seq<(nat, Record)>, ghost from: State) returns (ok: bool)
      requires Sending(batch, Stream(Records(batch)), from) && model.broken == tofd.broken
      modifies tofd, this`model
      ensures Sending(batch, model.unsent, from) && (ok <==> model.unsent == []) && (ok <==> !tofd.broken)
      ensures ok ==> !model.broken
    {
      var ptr := Stream(Records(batch));
      hide Inv, Reaches, Bytes, Settle, Stream;
      while |ptr| > 0
        invariant Sending(batch, ptr, from) && model.broken == tofd.broken
        decreases |ptr|, tofd.patience
      {
        var ret := tofd.Write(ptr);
        if ret < 0 { return false; }
        Moves(from, model, WriteSome(ret));
        ptr, model := ptr[ret..], Apply(model, WriteSome(ret));
      }
      WholeIsNotBroken(model);
      ok := true;
    }
  }

  lemma {:induction false} WholeIsNotBroken(s: State)
    requires Inv(s) && s.batch != [] && s.unsent == []
    ensures !s.broken
  {
    assert SendOk(s);
  }

  lemma {:induction false} Stays(s: State)
    ensures Reaches(s, s)
  {
    assert After(s, []) == Some(s);
  }

  lemma {:induction false} Moves(from: State, s: State, step: Step)
    requires Inv(s) && Can(s, step) && Reaches(from, s)
    ensures Known(s) && Inv(Apply(s, step)) && Reaches(from, Apply(s, step))
  {
    StepKeeps(s, step);
    hide QueuesOk, SendOk, ServeOk, ReceiveOk, OutcomesOk;
    Further(from, s, step);
  }

  /** The records of queued requests are those accepted. */
  predicate Holds(s: State, requests: seq<(nat, Record)>) {
    forall i :: 0 <= i < |requests| ==> requests[i].0 < |s.accepted| && s.accepted[requests[i].0] == requests[i].1
  }

  lemma {:induction false} BytesAre(s: State, requests: seq<(nat, Record)>)
    requires Holds(s, requests)
    ensures Bytes(s, Ids(requests)) == Stream(Records(requests))
  {
    var ids := Ids(requests);
    assert seq(|ids|, i requires 0 <= i < |ids| => s.accepted[ids[i]]) == Records(requests);
  }

  /** What `_run_responses` works on. */
  class ResponseLoop {
    var responses: seq<nat>
    var outcomes: map<int, Outcome>

    constructor ()
      ensures responses == [] && outcomes == map[]
    {
      responses, outcomes := [], map[];
    }

    /** One turn of `_run_responses`. */
    method ReceiveOne(buffer: AsyncReadBuffer)
      requires responses != [] && buffer.Valid()
      modifies this, buffer
      ensures buffer.Valid() && responses == old(responses)[1..]
      ensures var t, k := old(buffer.Whole()), old(responses)[0];
              if |t| < RESPONSE then outcomes == old(outcomes)[k := Hangup] && buffer.Whole() == t
              else outcomes == old(outcomes)[k := Result(t[..RESPONSE])] && buffer.Whole() == t[RESPONSE..]
    {
      var k := responses[0];
      responses := responses[1..];
      var r := buffer.ReadLength(RESPONSE, true);
      outcomes := outcomes[k := if r.None? then Hangup else Result(r.value)];
    }
  }

  function Ids(batch: seq<(nat, Record)>): seq<nat> {
    seq(|batch|, i requires 0 <= i < |batch| => batch[i].0)
  }

  function Records(batch: seq<(nat, Record)>): seq<Record> {
    seq(|batch|, i requires 0 <= i < |batch| => batch[i].1)
  }
}
