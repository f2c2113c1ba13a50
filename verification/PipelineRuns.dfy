/** What pipelining guarantees in every run. */
module PipelineRuns {
  import opened Prelude
  import opened Streams
  import opened Pipeline
  import opened PipelineSteps

  ghost predicate IsRun(states: seq<State>, steps: seq<Step>) {
    && |states| == |steps| + 1 && states[0] == Start
    && forall i :: 0 <= i < |steps| ==>
         Known(states[i]) && Can(states[i], steps[i]) && states[i + 1] == Apply(states[i], steps[i])
  }

  lemma {:induction false} RunKeeps(states: seq<State>, steps: seq<Step>, i: nat)
    requires IsRun(states, steps) && i < |states|
    ensures Inv(states[i])
  {
    if i == 0 {
      StartIsOk();
    } else {
      RunKeeps(states, steps, i - 1);
      assert Can(states[i - 1], steps[i - 1]);
      StepKeeps(states[i - 1], steps[i - 1]);
    }
  }

  lemma {:induction false} StartIsOk()
    ensures Inv(Start)
  {
  }

  /** The server performs the accepted requests, in order of acceptance. */
  lemma {:induction false} ExecutedInOrder(s: State)
    requires Inv(s)
    ensures IsPrefix(s.executed, s.accepted) && REQUEST * |s.executed| <= |s.written|
  {
    assert IsPrefix(Stream(s.executed), Stream(s.accepted)) by {
      assert Stream(s.executed) == s.written[..|Stream(s.executed)|];
    }
    StreamLength(s.executed, REQUEST);
    RecordsOfPrefix(s.executed, s.accepted, REQUEST);
  }

  /** Every continuation that gets a result gets the result of its own request. */
  lemma {:induction false} PipeliningIsCorrect(states: seq<State>, steps: seq<Step>, i: nat)
    requires IsRun(states, steps) && i < |states|
    ensures var s := states[i];
            && IsPrefix(s.executed, s.accepted) && |s.results| == |s.executed|
            && (forall k :: k in s.outcomes && s.outcomes[k].Result? ==>
                 0 <= k < |s.executed| && s.outcomes[k].value == s.results[k])
  {
    RunKeeps(states, steps, i);
    ExecutedInOrder(states[i]);
  }

  /** A continuation is resumed at most once, and what the server has done stays done. */
  lemma {:induction false} OutcomesAreFinal(s: State, step: Step)
    requires Inv(s) && Can(s, step)
    ensures forall k :: k in s.outcomes ==> k in Apply(s, step).outcomes && Apply(s, step).outcomes[k] == s.outcomes[k]
    ensures IsPrefix(s.executed, Apply(s, step).executed) && IsPrefix(s.results, Apply(s, step).results)
  {
    hide Known, QueuesOk, SendOk, ServeOk, ReceiveOk, OutcomesOk, Settle, Bytes;
    if step.WriteFails? {
      FailureIsNew(s);
    } else if step.ReadFails? || step.Answer? {
      ReadingIsNew(s);
    }
  }

  lemma {:induction false} FailureIsNew(s: State)
    requires QueuesOk(s) && OutcomesOk(s)
    ensures forall k :: k in s.outcomes ==>
              k in Settle(s.outcomes, s.batch, SendError) && Settle(s.outcomes, s.batch, SendError)[k] == s.outcomes[k]
  {
    SettleAt(s);
    hide Settle, From;
  }

  lemma {:induction false} ReadingIsNew(s: State)
    requires QueuesOk(s) && OutcomesOk(s) && s.reading.Some?
    ensures s.reading.value !in s.outcomes
  {
    hide From;
  }

  /** Nobody is forgotten: a request without an outcome is in exactly one place. */
  lemma {:induction false} PendingIsSomewhere(s: State, k: nat)
    requires Inv(s) && k < |s.accepted| && k !in s.outcomes
    ensures k in s.waiting || k in s.batch || k in s.sent || s.reading == Some(k)
  {
    hide Known, SendOk, ServeOk, ReceiveOk, From;
    assert QueuesOk(s) && OutcomesOk(s);
    if k >= Taken(s) {
      InRun(s.waiting, Taken(s), k);
    } else if k >= BatchStart(s) {
      InRun(s.batch, BatchStart(s), k);
    } else if k >= s.forwarded - |s.sent| {
      InRun(s.sent, s.forwarded - |s.sent|, k);
    }
  }

  lemma {:induction false} InRun(ids: seq<nat>, first: int, k: nat)
    requires From(ids, first) && first <= k < first + |ids|
    ensures k in ids
  {
    assert ids[k - first] == k;
  }

  // ---------------------------------------------------------------- SyscallSendError

  /** The state a list of steps leads to, if each can be taken. */
  function After(s: State, steps: seq<Step>): Option<State>
    decreases |steps|
  {
    if steps == [] then Some(s)
    else if Known(s) && Can(s, steps[0]) then After(Apply(s, steps[0]), steps[1..])
    else None
  }

  ghost predicate Reaches(s: State, s': State) {
    exists steps :: After(s, steps) == Some(s')
  }

  lemma {:induction false} Then(s: State, step: Step, s': State)
    requires Known(s) && Can(s, step) && Reaches(Apply(s, step), s')
    ensures Reaches(s, s')
  {
    hide Known, Can, Apply;
    var more :| After(Apply(s, step), more) == Some(s');
    assert ([step] + more)[1..] == more;
    assert After(s, [step] + more) == Some(s');
  }

  lemma {:induction false} Joined(s: State, steps: seq<Step>, more: seq<Step>)
    requires After(s, steps).Some?
    ensures After(s, steps + more) == After(After(s, steps).value, more)
    decreases |steps|
  {
    hide Known, Can, Apply;
    if steps == [] {
      assert steps + more == more;
    } else {
      assert (steps + more)[1..] == steps[1..] + more;
      Joined(Apply(s, steps[0]), steps[1..], more);
    }
  }

  lemma {:induction false} Further(from: State, s: State, step: Step)
    requires Reaches(from, s) && Known(s) && Can(s, step)
    ensures Reaches(from, Apply(s, step))
  {
    hide Known, Can, Apply;
    var steps :| After(from, steps) == Some(s);
    assert [step][1..] == [] && After(s, [step]) == Some(Apply(s, step));
    Joined(from, steps, [step]);
    assert After(from, steps + [step]) == Some(Apply(s, step));
  }

  /** A request that was not completely written has not been performed. */
  lemma {:induction false} UnsentIsNotExecuted(s: State, k: nat)
    requires Inv(s) && |s.written| < REQUEST * (k + 1)
    ensures |s.executed| <= k
  {
    hide Inv;
    ExecutedInOrder(s);
  }

  /** After a failed write nothing is written any more, and a stopped server performs nothing. */
  lemma {:induction false} NothingMoreHappens(s: State, step: Step)
    requires Known(s) && Can(s, step)
    ensures s.broken ==> Apply(s, step).broken && Apply(s, step).written == s.written
    ensures s.stopped ==> Apply(s, step).stopped && Apply(s, step).executed == s.executed
  {
    hide Known, Bytes, Settle;
  }

  lemma {:induction false} NothingMoreAfter(s: State, steps: seq<Step>)
    requires Inv(s) && After(s, steps).Some?
    ensures var s' := After(s, steps).value;
            && Inv(s') && (s.broken ==> s'.broken && s'.written == s.written)
                && (s.stopped ==> s'.executed == s.executed)
    decreases |steps|
  {
    hide Inv, Known, Can, Apply;
    if steps != [] {
      NothingMoreHappens(s, steps[0]);
      StepKeeps(s, steps[0]);
      NothingMoreAfter(Apply(s, steps[0]), steps[1..]);
    }
  }

  /** Everything written gets performed, as long as the server goes on. */
  lemma {:induction false} SentCanBeExecuted(s: State, k: nat) returns (s': State)
    requires Inv(s) && !s.stopped && REQUEST * (k + 1) <= |s.written|
    ensures Reaches(s, s') && k < |s'.executed|
    decreases k + 1 - |s.executed|, |s.unwritten|, REQUEST - |s.partial|
  {
    if k < |s.executed| {
      s' := s;
      assert After(s, []) == Some(s);
      return;
    }
    var step := ServerStep(s, k);
    var s1 := Apply(s, step);
    StepKeeps(s, step);
    hide Inv, Reaches;
    s' := SentCanBeExecuted(s1, k);
    Then(s, step, s');
  }

  /** What the server does next. */
  lemma {:induction false} ServerStep(s: State, k: nat) returns (step: Step)
    requires Inv(s) && !s.stopped && REQUEST * (k + 1) <= |s.written| && |s.executed| <= k
    ensures Known(s) && Can(s, step) && (step.ServerWrites? || step.ServerReads? || step.Perform?)
    ensures step.ServerWrites? ==> s.unwritten != [] && step.n == |s.unwritten|
    ensures |s.partial| <= REQUEST
  {
    hide QueuesOk, SendOk, ReceiveOk, OutcomesOk, Known, Stream;
    StreamLength(s.executed, REQUEST);
    if s.unwritten != [] {
      step := ServerWrites(|s.unwritten|);
    } else if |s.partial| == REQUEST {
      step := Perform(seq(RESPONSE, _ => 0));
    } else {
      MulMonotone(REQUEST, |s.executed|, k);
      var n := REQUEST - |s.partial|;
      step := ServerReads(if n <= |s.inbound| then n else |s.inbound|);
    }
  }

  lemma {:induction false} MulMonotone(size: nat, a: nat, b: nat)
    requires a <= b
    ensures size * a <= size * b
  {
  }

  lemma {:induction false} ErrorMeansBroken(s: State, k: int)
    requires QueuesOk(s) && OutcomesOk(s) && k in s.outcomes && s.outcomes[k] == SendError
    ensures s.broken && 0 <= k
  {
    hide From;
  }

  /** Exactly when a request that got a SyscallSendError is, or still can be, performed: if it was
      completely written before the write failed, and the server has not stopped before it. */
  lemma {:induction false} SendErrorIsExact(states: seq<State>, steps: seq<Step>, i: nat, k: nat)
    requires IsRun(states, steps) && i < |states| && k in states[i].outcomes && states[i].outcomes[k] == SendError
    ensures var s := states[i];
            && s.broken
            && ((exists s' :: Reaches(s, s') && k < |s'.executed|)
                <==> k < |s.executed| || (!s.stopped && REQUEST * (k + 1) <= |s.written|))
  {
    var s := states[i];
    RunKeeps(states, steps, i);
    ErrorMeansBroken(s, k);
    hide Inv, IsRun;
    if k < |s.executed| {
      assert After(s, []) == Some(s);
    } else if !s.stopped && REQUEST * (k + 1) <= |s.written| {
      var s' := SentCanBeExecuted(s, k);
    } else {
      forall s' | Reaches(s, s') ensures |s'.executed| <= k {
        var more :| After(s, more) == Some(s');
        NothingMoreAfter(s, more);
        if !s.stopped { UnsentIsNotExecuted(s', k); }
      }
    }
  }

  /** What was written is settled when the write fails: it is the same in every later state. */
  lemma {:induction false} WrittenIsSettled(states: seq<State>, steps: seq<Step>, i: nat, j: nat)
    requires IsRun(states, steps) && i <= j < |states| && states[i].broken
    ensures states[j].broken && states[j].written == states[i].written
  {
    hide Can, Apply, Known;
    if i < j {
      WrittenIsSettled(states, steps, i, j - 1);
      assert Can(states[j - 1], steps[j - 1]);
      NothingMoreHappens(states[j - 1], steps[j - 1]);
    }
  }

  /** It does happen: when a write fails after the first of several requests, that request gets the
      error like all others. */
  lemma {:induction false} FirstOfBatchMisreported(s: State)
    requires Inv(s) && !s.broken && |s.batch| >= 2 && |s.unsent| == REQUEST * |s.batch|
    ensures Can(s, WriteSome(REQUEST)) && Known(Apply(s, WriteSome(REQUEST)))
            && Can(Apply(s, WriteSome(REQUEST)), WriteFails)
    ensures var s', k := Apply(Apply(s, WriteSome(REQUEST)), WriteFails), s.batch[0];
            k in s'.outcomes && s'.outcomes[k] == SendError && REQUEST * (k + 1) <= |s'.written|
  {
    var s1 := Apply(s, WriteSome(REQUEST));
    BatchFollows(s);
    assert Known(s1) && QueuesOk(s);
    hide Inv, Known, SendOk, ServeOk, ReceiveOk, OutcomesOk, Bytes;
    assert From(s1.batch, BatchStart(s1)) && s1.batch == s.batch && s.batch[0] == BatchStart(s1);
    SettleAt(s1);
    hide Settle, From;
  }

  lemma {:induction false} BatchFollows(s: State)
    requires SendOk(s) && QueuesOk(s) && !s.broken && |s.unsent| == REQUEST * |s.batch| && s.batch != []
    ensures |s.written| == REQUEST * s.batch[0]
  {
    hide Stream, IsPrefix;
    StreamLength(s.accepted[..Taken(s)], REQUEST);
    assert s.batch[0] == BatchStart(s);
  }
}
