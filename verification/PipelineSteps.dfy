/** Every step of the pipeline keeps its invariant. */
module PipelineSteps {
  import opened Prelude
  import opened Streams
  import opened Pipeline

  // ---------------------------------------------------------------- the server

  lemma {:induction false} ServeFrame(s: State, s': State)
    requires ServeOk(s)
    requires s'.executed == s.executed && s'.results == s.results && s'.partial == s.partial
             && s'.written == s.written && s'.inbound == s.inbound
    ensures ServeOk(s')
  {
  }

  lemma {:induction false} ServeWriteSome(s: State, n: nat)
    requires ServeOk(s) && n <= |s.unsent|
    ensures ServeOk(s.(written := s.written + s.unsent[..n], inbound := s.inbound + s.unsent[..n]))
  {
    assert s.written + s.unsent[..n] == Stream(s.executed) + s.partial + (s.inbound + s.unsent[..n]);
  }

  lemma {:induction false} ServeReads(s: State, n: nat)
    requires ServeOk(s) && n <= |s.inbound| && |s.partial| + n <= REQUEST
    ensures ServeOk(s.(inbound := s.inbound[n..], partial := s.partial + s.inbound[..n]))
  {
    assert s.written == Stream(s.executed) + (s.partial + s.inbound[..n]) + s.inbound[n..];
  }

  lemma {:induction false} ServePerform(s: State, result: Record)
    requires ServeOk(s) && |s.partial| == REQUEST && |result| == RESPONSE
    ensures ServeOk(s.(partial := [], executed := s.executed + [s.partial], results := s.results + [result]))
  {
    StreamOne(s.executed, s.partial);
    assert s.written == Stream(s.executed) + s.partial + [] + s.inbound;
  }

  lemma {:induction false} StepServe(s: State, step: Step)
    requires ServeOk(s) && Known(s) && Can(s, step)
    ensures ServeOk(Apply(s, step))
  {
    hide ServeOk, Bytes, Settle;
    var s' := Apply(s, step);
    match step
    case WriteSome(n) =>
      ServeWriteSome(s, n);
      ServeFrame(s.(written := s.written + s.unsent[..n], inbound := s.inbound + s.unsent[..n]), s');
    case ServerReads(n) => ServeReads(s, n);
    case Perform(result) =>
      ServePerform(s, result);
      ServeFrame(s.(partial := [], executed := s.executed + [s.partial], results := s.results + [result]), s');
    case _ => ServeFrame(s, s');
  }

  // ---------------------------------------------------------------- responses

  lemma {:induction false} ReceiveFrame(s: State, s': State)
    requires ReceiveOk(s)
    requires s'.results == s.results && s'.answered == s.answered && s'.buf == s.buf && s'.outbound == s.outbound
             && s'.unwritten == s.unwritten
    ensures ReceiveOk(s')
  {
  }

  lemma {:induction false} ReceivePerform(s: State, result: Record)
    requires ReceiveOk(s) && s.unwritten == []
    ensures ReceiveOk(s.(results := s.results + [result], unwritten := result))
  {
    var rest := s.results[s.answered..];
    StreamOne(rest, result);
    assert (s.results + [result])[s.answered..] == rest + [result];
    assert Stream(rest + [result]) == s.buf + s.outbound + result;
  }

  lemma {:induction false} ReceiveServerWrites(s: State, n: nat)
    requires ReceiveOk(s) && n <= |s.unwritten|
    ensures ReceiveOk(s.(unwritten := s.unwritten[n..], outbound := s.outbound + s.unwritten[..n]))
  {
    assert s.buf + s.outbound + s.unwritten == s.buf + (s.outbound + s.unwritten[..n]) + s.unwritten[n..];
  }

  lemma {:induction false} ReceiveClientReads(s: State, n: nat)
    requires ReceiveOk(s) && n <= |s.outbound|
    ensures ReceiveOk(s.(outbound := s.outbound[n..], buf := s.buf + s.outbound[..n]))
  {
    assert s.buf + s.outbound + s.unwritten == (s.buf + s.outbound[..n]) + s.outbound[n..] + s.unwritten;
  }

  /** The next eight bytes are the next result. */
  lemma {:induction false} NextResponse(s: State)
    requires ReceiveOk(s) && Sized(s.results, RESPONSE) && |s.buf| >= RESPONSE
    ensures s.answered < |s.results| && s.results[s.answered] == s.buf[..RESPONSE]
    ensures Stream(s.results[s.answered + 1..]) == s.buf[RESPONSE..] + s.outbound + s.unwritten
  {
    var rest := s.results[s.answered..];
    assert |Stream(rest)| >= RESPONSE;
    StreamFirst(rest);
    assert rest[1..] == s.results[s.answered + 1..];
    var all := s.buf + s.outbound + s.unwritten;
    assert all[..RESPONSE] == s.buf[..RESPONSE];
    assert all[RESPONSE..] == s.buf[RESPONSE..] + s.outbound + s.unwritten;
  }

  lemma {:induction false} StepReceive(s: State, step: Step)
    requires ReceiveOk(s) && Sized(s.results, RESPONSE) && Known(s) && Can(s, step)
    ensures ReceiveOk(Apply(s, step))
  {
    var s' := Apply(s, step);
    if step.Answer? {
      NextResponse(s);
    } else {
      hide ReceiveOk, Bytes, Settle;
      match step
      case Perform(result) =>
        ReceivePerform(s, result);
        ReceiveFrame(s.(results := s.results + [result], unwritten := result), s');
      case ServerWrites(n) => ReceiveServerWrites(s, n);
      case ClientReads(n) => ReceiveClientReads(s, n);
      case _ => ReceiveFrame(s, s');
    }
  }

  // ---------------------------------------------------------------- requests

  lemma {:induction false} SendFrame(s: State, s': State)
    requires SendOk(s)
    requires s'.accepted == s.accepted && s'.written == s.written && s'.unsent == s.unsent && s'.broken == s.broken
    requires s'.waiting == s.waiting && s'.batch == s.batch && s'.forwarded == s.forwarded
    ensures SendOk(s')
  {
  }

  lemma {:induction false} SendRequest(s: State, r: Record)
    requires SendOk(s) && |s.waiting| <= |s.accepted| && |r| == REQUEST
    ensures SendOk(Accept(s, r))
  {
    StreamOne(s.accepted, r);
    assert (s.accepted + [r])[..Taken(s)] == s.accepted[..Taken(s)];
  }

  function Accept(s: State, r: Record): State {
    s.(accepted := s.accepted + [r], waiting := s.waiting + [|s.accepted|])
  }

  /** A batch is put on the wire right behind what was written. */
  lemma {:induction false} BatchBytes(accepted: seq<Record>, t: nat, ids: seq<nat>, s: State)
    requires s.accepted == accepted && Sized(accepted, REQUEST) && t + |ids| <= |accepted| && From(ids, t) && ids != []
    ensures Bytes(s, ids) != [] && Stream(accepted[..t]) + Bytes(s, ids) == Stream(accepted[..t + |ids|])
  {
    var n := |ids|;
    var recs := seq(n, i requires 0 <= i < n => s.accepted[ids[i]]);
    assert recs == accepted[t..t + n];
    StreamLength(recs, REQUEST);
    StreamSplit(accepted[..t + n], t);
    assert accepted[..t + n][..t] == accepted[..t] && accepted[..t + n][t..] == recs;
  }

  lemma {:induction false} SendGetMany(s: State, n: nat)
    requires SendOk(s) && From(s.waiting, Taken(s)) && Known(s) && Can(s, GetMany(n))
    ensures SendOk(Apply(s, GetMany(n)))
  {
    BatchBytes(s.accepted, Taken(s), s.waiting[..n], s);
    assert s.written + [] == s.written;
  }

  lemma {:induction false} MoreIsWritten(written: seq<Byte>, unsent: seq<Byte>, n: nat, all: seq<Byte>)
    requires n <= |unsent| && IsPrefix(written + unsent, all)
    ensures written + unsent[..n] + unsent[n..] == written + unsent && IsPrefix(written + unsent[..n], all)
  {
    assert written + unsent[..n] == (written + unsent)[..|written| + n];
  }

  lemma {:induction false} SendWriteSome(s: State, n: nat)
    requires SendOk(s) && Known(s) && Can(s, WriteSome(n))
    ensures SendOk(Apply(s, WriteSome(n)))
  {
    StreamSplit(s.accepted, Taken(s));
    hide Stream;
    MoreIsWritten(s.written, s.unsent, n, Stream(s.accepted));
  }

  lemma {:induction false} SendWriteFails(s: State)
    requires SendOk(s) && Known(s) && Can(s, WriteFails)
    ensures SendOk(Apply(s, WriteFails))
  {
    hide Stream, Settle;
  }

  lemma {:induction false} SendForward(s: State)
    requires SendOk(s) && Known(s) && Can(s, Forward) && s.forwarded + |s.batch| == Taken(s)
    ensures SendOk(Apply(s, Forward))
  {
    StreamLength(s.accepted[..Taken(s)], REQUEST);
    assert s.written + [] == s.written;
  }

  lemma {:induction false} StepSend(s: State, step: Step)
    requires SendOk(s) && QueuesOk(s) && Known(s) && Can(s, step)
    ensures SendOk(Apply(s, step))
  {
    assert step.Forward? ==> !s.broken;
    hide SendOk, Bytes, Settle;
    match step
    case Request(r) => SendRequest(s, r);
    case GetMany(n) => SendGetMany(s, n);
    case WriteSome(n) => SendWriteSome(s, n);
    case WriteFails => SendWriteFails(s);
    case Forward => SendForward(s);
    case _ => SendFrame(s, Apply(s, step));
  }

  // ---------------------------------------------------------------- queues and outcomes

  lemma {:induction false} StepQueues(s: State, step: Step)
    requires QueuesOk(s) && Known(s) && Can(s, step)
    requires step.Forward? ==> !s.broken
    ensures Known(Apply(s, step)) && QueuesOk(Apply(s, step))
  {
    hide Bytes, Settle;
  }

  lemma {:induction false} OutcomesFrame(s: State, s': State)
    requires OutcomesOk(s)
    requires s'.answered == s.answered && IsPrefix(s.results, s'.results) && s'.eof == s.eof
             && (s.eof ==> s'.buf == s.buf) && s'.outcomes == s.outcomes
    requires s'.forwarded == s.forwarded && BatchStart(s') == BatchStart(s) && s'.sent == s.sent
             && s'.reading == s.reading
    ensures OutcomesOk(s')
  {
  }

  lemma {:induction false} SettleAt(s: State)
    requires From(s.batch, BatchStart(s))
    ensures forall k :: k in Settle(s.outcomes, s.batch, SendError) <==>
              k in s.outcomes || BatchStart(s) <= k < Taken(s)
    ensures forall k :: BatchStart(s) <= k < Taken(s) ==> Settle(s.outcomes, s.batch, SendError)[k] == SendError
    ensures forall k :: k in s.outcomes && !(BatchStart(s) <= k < Taken(s)) ==>
              Settle(s.outcomes, s.batch, SendError)[k] == s.outcomes[k]
  {
    forall k ensures k in s.batch <==> BatchStart(s) <= k < Taken(s) {
      if BatchStart(s) <= k < Taken(s) { assert s.batch[k - BatchStart(s)] == k; }
    }
  }

  lemma {:induction false} OutcomesWriteFails(s: State)
    requires OutcomesOk(s) && QueuesOk(s) && Known(s) && Can(s, WriteFails)
    ensures OutcomesOk(Apply(s, WriteFails))
  {
    SettleAt(s);
    hide Settle, From;
  }

  lemma {:induction false} OutcomesAnswer(s: State)
    requires OutcomesOk(s) && QueuesOk(s) && ReceiveOk(s) && Sized(s.results, RESPONSE) && Known(s) && Can(s, Answer)
    ensures OutcomesOk(Apply(s, Answer))
  {
    NextResponse(s);
    hide From, ReceiveOk, Sized;
  }

  lemma {:induction false} OutcomesReadFails(s: State)
    requires OutcomesOk(s) && QueuesOk(s) && Known(s) && Can(s, ReadFails)
    ensures OutcomesOk(Apply(s, ReadFails))
  {
    hide From;
  }

  lemma {:induction false} OutcomesMoved(s: State, step: Step)
    requires OutcomesOk(s) && QueuesOk(s) && Known(s) && Can(s, step) && ((step.Forward? && !s.broken) || step.GetOne?)
    ensures OutcomesOk(Apply(s, step))
  {
    hide From;
  }

  lemma {:induction false} StepOutcomes(s: State, step: Step)
    requires OutcomesOk(s) && QueuesOk(s) && ReceiveOk(s) && Sized(s.results, RESPONSE) && Known(s) && Can(s, step)
    requires step.Forward? ==> !s.broken
    ensures OutcomesOk(Apply(s, step))
  {
    hide Bytes, Settle, OutcomesOk, QueuesOk, ReceiveOk, Sized;
    match step
    case WriteFails => OutcomesWriteFails(s);
    case Answer => OutcomesAnswer(s);
    case Forward => OutcomesMoved(s, step);
    case GetOne => OutcomesMoved(s, step);
    case ReadFails => OutcomesReadFails(s);
    case _ => OutcomesFrame(s, Apply(s, step));
  }

  lemma {:induction false} ForwardIsWhole(s: State, step: Step)
    requires SendOk(s) && Can(s, step)
    ensures step.Forward? ==> !s.broken
  {
    hide Stream, IsPrefix, Sized;
  }

  lemma {:induction false} ResultsAreSized(s: State)
    requires ServeOk(s)
    ensures Sized(s.results, RESPONSE)
  {
    hide Stream, Sized;
  }

  lemma {:induction false} StepKeeps(s: State, step: Step)
    requires Inv(s) && Can(s, step)
    ensures Inv(Apply(s, step))
  {
    hide Known, QueuesOk, SendOk, ServeOk, ReceiveOk, OutcomesOk, Can, Apply, Sized;
    ForwardIsWhole(s, step);
    ResultsAreSized(s);
    StepQueues(s, step);
    StepSend(s, step);
    StepServe(s, step);
    StepReceive(s, step);
    StepOutcomes(s, step);
  }
}
