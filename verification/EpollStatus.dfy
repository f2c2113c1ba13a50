/**
 Readiness tracking with edge-triggered epoll for one registered file: the kernel's view, events
 on their way, the program's counters, calls in progress and parked coroutines.

 The kernel owes one edge for every flag that becomes ready. A call that fails with EAGAIN was
 run while none of the flags it waits for was ready.
 */
module EpollStatus {
  import opened Prelude

  datatype Flag = IN | OUT | RDHUP | PRI | ERR | HUP

  type Count = Flag -> nat

  datatype Answer = Unanswered | Success | Eagain | Failed      // Failed: any other error

  /** A call made after wait_for(flags), with the event counts taken just before it; a failure other
      than EAGAIN puts `onError` in the mask. */
  datatype Call = Call(flags: set<Flag>, onError: set<Flag>, snapshot: Count, answer: Answer)

  datatype State = State(
    ready: set<Flag>,                // what the kernel would report by polling
    edges: set<Flag>,                // changes epoll has not reported
    inflight: seq<set<Flag>>,        // events read by epoll_wait and not dispatched
    mask: set<Flag>,                 // FDStatus.mask
    total: Count,                    // total_events
    consumed: Count,                 // consumed_events
    calls: map<int, Call>,
    parked: map<int, set<Flag>>)     // coroutines parked in wait_for

  datatype Step =
    | Ready(flags: set<Flag>)
    | Unready(flags: set<Flag>)
    | EpollWait(ev: set<Flag>)
    | Dispatch
    | WaitFor(co: int, flags: set<Flag>)
    | Begin(co: int, flags: set<Flag>, onError: set<Flag>)
    | Run(co: int, answer: Answer)
    | Handle(co: int)

  predicate Can(s: State, step: Step) {
    match step
    case EpollWait(ev) => s.edges * s.ready <= ev     // flags that are ready no more may be left out
    case Dispatch => s.inflight != []
    case WaitFor(co, _) => co !in s.parked && co !in s.calls
    case Begin(co, _, _) => co !in s.parked && co !in s.calls
    case Run(co, answer) => co in s.calls && s.calls[co].answer.Unanswered? && !answer.Unanswered?
                            && (answer.Eagain? ==> s.calls[co].flags * s.ready == {})
    case Handle(co) => co in s.calls && !s.calls[co].answer.Unanswered?
    case _ => true
  }

  /** The test at the start of wait_for. */
  predicate MustPark(s: State, flags: set<Flag>) {
    s.mask * flags == {} && forall f :: f in flags ==> s.total(f) <= s.consumed(f)
  }

  function Bump(total: Count, ev: set<Flag>): Count {
    f => if f in ev then total(f) + 1 else total(f)
  }

  /** `consume`. */
  function Consume(consumed: Count, flags: set<Flag>, snapshot: Count): Count {
    f => if f in flags && consumed(f) < snapshot(f) then snapshot(f) else consumed(f)
  }

  /** The coroutines an event leaves parked. */
  function StillParked(parked: map<int, set<Flag>>, ev: set<Flag>): map<int, set<Flag>> {
    map co | co in parked && parked[co] * ev == {} :: parked[co]
  }

  function Apply(s: State, step: Step): State
    requires Can(s, step)
  {
    match step
    case Ready(flags) => s.(ready := s.ready + flags, edges := s.edges + flags)
    case Unready(flags) => s.(ready := s.ready - flags)
    case EpollWait(ev) => s.(edges := {}, inflight := s.inflight + [ev])
    case Dispatch =>
      var ev := s.inflight[0];
      s.(inflight := s.inflight[1..], mask := s.mask + ev, total := Bump(s.total, ev), parked :=
          StillParked(s.parked, ev))
    case WaitFor(co, flags) => if MustPark(s, flags) then s.(parked := s.parked[co := flags]) else s
    case Begin(co, flags, onError) => s.(calls := s.calls[co := Call(flags, onError, s.total, Unanswered)])
    case Run(co, answer) => s.(calls := s.calls[co := s.calls[co].(answer := answer)])
    case Handle(co) =>
      var c := s.calls[co];
      // a successful call returns before it reaches the code that would record the success
      if c.answer.Success? then s.(calls := s.calls - {co})
      else s.(calls := s.calls - {co},
              mask := if c.answer.Eagain? then s.mask - c.flags else s.mask + c.onError,
              consumed := Consume(s.consumed, c.flags, c.snapshot))
  }

  // ---------------------------------------------------------------- no lost wakeup

  /** An event for the flag is still to be dispatched. */
  predicate Coming(s: State, f: Flag) {
    f in s.edges || exists i :: 0 <= i < |s.inflight| && f in s.inflight[i]
  }

  /** The flag is ready, and no event will say so. */
  predicate Quiet(s: State, f: Flag) {
    f in s.ready && !Coming(s, f)
  }

  /** A call on the flag has got EAGAIN, and its result is still to be handled. */
  predicate Stale(s: State, f: Flag) {
    exists co :: co in s.calls && s.calls[co].answer.Eagain? && f in s.calls[co].flags
  }

  /** If the flag is quiet, an event beyond the first `n` has been dispatched. */
  predicate Announced(s: State, f: Flag, n: nat) {
    Quiet(s, f) ==> s.total(f) > n
  }

  /** If the flag is quiet, nobody parks on it: an event is unconsumed, or it is in the mask to stay. */
  ghost predicate Noticed(s: State, f: Flag) {
    Quiet(s, f) ==> s.total(f) > s.consumed(f) || (f in s.mask && !Stale(s, f))
  }

  ghost predicate CountsOk(s: State) {
    && (forall f :: s.consumed(f) <= s.total(f))
    && (forall co, f :: co in s.calls ==> s.calls[co].snapshot(f) <= s.total(f))
  }

  ghost predicate AnnouncedOk(s: State) {
    && (forall f :: Noticed(s, f))
    && (forall co, f :: co in s.calls && s.calls[co].answer.Eagain? && f in s.calls[co].flags ==>
         Announced(s, f, s.calls[co].snapshot(f)))
  }

  ghost predicate NoLostWakeup(s: State) {
    forall co, f :: co in s.parked && f in s.parked[co] && f in s.ready ==> Coming(s, f)
  }

  ghost predicate Inv(s: State) {
    CountsOk(s) && AnnouncedOk(s) && NoLostWakeup(s)
  }

  /** A test for ending a failed call, flag by flag, on mask, counts and calls in progress: it consumes
      no event that is not consumed already, or there was one after it began, or the flag is in the
      mask afterwards and no other call is about to clear it. */
  predicate KeepsNotice(s: State, co: int, f: Flag)
    requires co in s.calls
  {
    || s.calls[co].snapshot(f) < s.total(f)
    || s.calls[co].snapshot(f) <= s.consumed(f)
    || ((f in s.mask || f in s.calls[co].onError) && !Stale(s, f))
  }

  /** A call that failed otherwise than with EAGAIN ends only when it passes the test. */
  predicate Regular(s: State, step: Step) {
    step.Handle? && step.co in s.calls && s.calls[step.co].answer.Failed? ==>
      forall f :: f in s.calls[step.co].flags ==> KeepsNotice(s, step.co, f)
  }

  /** A file as `register` adds it: everything ready is an edge, and it is assumed ready for IO. */
  ghost predicate Init(s: State) {
    && s.ready <= s.edges && s.inflight == [] && s.mask == {IN, OUT} && s.calls == map[] && s.parked == map[]
    && forall f :: s.total(f) == 0 && s.consumed(f) == 0
  }

  /** What is quiet after a step was quiet before, or was announced by it. */
  lemma {:induction false} QuietBefore(s: State, step: Step, f: Flag)
    requires Can(s, step) && Quiet(Apply(s, step), f)
    ensures Quiet(s, f) || (step.Dispatch? && f in s.inflight[0])
  {
    if f !in s.ready {
      NewlyReady(s, step, f);
    } else if Coming(s, f) {
      StaysComing(s, step, f);
    }
  }

  lemma {:induction false} StaysAnnounced(s: State, step: Step, f: Flag, n: nat)
    requires Can(s, step) && Announced(s, f, n) && n <= s.total(f)
    ensures Announced(Apply(s, step), f, n)
  {
    if Quiet(Apply(s, step), f) { QuietBefore(s, step, f); }
  }

  /** Which flags can become stale, and which can leave the mask. */
  lemma {:induction false} StaleBefore(s: State, step: Step, f: Flag)
    requires Can(s, step)
    ensures Stale(Apply(s, step), f) && f in s.ready ==> Stale(s, f)
    ensures f in s.mask && !Stale(s, f) ==> f in Apply(s, step).mask
  {
    var s' := Apply(s, step);
    if step.Run? && step.answer.Eagain? && f in s.ready { assert f !in s.calls[step.co].flags * s.ready; }
    if Stale(s', f) && f in s.ready {
      var co :| co in s'.calls && s'.calls[co].answer.Eagain? && f in s'.calls[co].flags;
      assert co in s.calls && s.calls[co].answer.Eagain?;
    }
    if step.Handle? && s.calls[step.co].answer.Eagain? && f in s.calls[step.co].flags { assert Stale(s, f); }
  }

  lemma {:induction false} StaysComing(s: State, step: Step, f: Flag)
    requires Can(s, step) && Coming(s, f) && f in s.ready
    ensures var s' := Apply(s, step); f in s'.ready ==> Coming(s', f) || (step.Dispatch? && f in s.inflight[0])
  {
    var s' := Apply(s, step);
    match step
    case EpollWait(ev) =>
      assert s'.inflight[|s.inflight|] == ev;
      assert forall i :: 0 <= i < |s.inflight| ==> s'.inflight[i] == s.inflight[i];
    case Dispatch =>
      assert forall i :: 1 <= i < |s.inflight| ==> s.inflight[i] == s'.inflight[i - 1];
    case _ =>
  }

  lemma {:induction false} NewlyReady(s: State, step: Step, f: Flag)
    requires Can(s, step) && f !in s.ready && f in Apply(s, step).ready
    ensures Coming(Apply(s, step), f)
  {
  }

  lemma {:induction false} StepCounts(s: State, step: Step)
    requires CountsOk(s) && Can(s, step)
    ensures CountsOk(Apply(s, step))
  {
  }

  lemma {:induction false} StaysNoticed(s: State, step: Step, f: Flag)
    requires CountsOk(s) && AnnouncedOk(s) && Can(s, step) && Regular(s, step)
    ensures Noticed(Apply(s, step), f)
  {
    var s' := Apply(s, step);
    if Quiet(s', f) {
      QuietBefore(s, step, f);
      StaleBefore(s, step, f);
      if Quiet(s, f) {
        assert Noticed(s, f);
        if step.Handle? && f in s.calls[step.co].flags {
          if s.calls[step.co].answer.Eagain? {
            assert Stale(s, f);
            assert Announced(s, f, s.calls[step.co].snapshot(f));
          } else if s.calls[step.co].answer.Failed? {
            assert KeepsNotice(s, step.co, f);
          }
        }
      }
    }
  }

  lemma {:induction false} StepAnnounced(s: State, step: Step)
    requires CountsOk(s) && AnnouncedOk(s) && Can(s, step) && Regular(s, step)
    ensures AnnouncedOk(Apply(s, step))
  {
    var s' := Apply(s, step);
    forall f ensures Noticed(s', f) {
      StaysNoticed(s, step, f);
    }
    forall co, f | co in s'.calls && s'.calls[co].answer.Eagain? && f in s'.calls[co].flags
      ensures Announced(s', f, s'.calls[co].snapshot(f))
    {
      if co in s.calls && s.calls[co].answer.Eagain? {
        assert Announced(s, f, s.calls[co].snapshot(f));
        StaysAnnounced(s, step, f, s.calls[co].snapshot(f));
      } else {
        assert f !in s.calls[co].flags * s.ready;
      }
    }
  }

  lemma {:induction false} StepNoLostWakeup(s: State, step: Step)
    requires AnnouncedOk(s) && NoLostWakeup(s) && Can(s, step)
    ensures NoLostWakeup(Apply(s, step))
  {
    var s' := Apply(s, step);
    forall co, f | co in s'.parked && f in s'.parked[co] && f in s'.ready ensures Coming(s', f) {
      if f !in s.ready {
        NewlyReady(s, step, f);
      } else if co in s.parked {
        StaysComing(s, step, f);
        if step.Dispatch? { assert f !in s.parked[co] * s.inflight[0]; }
      } else {
        assert Noticed(s, f) && f !in s.mask * s'.parked[co];
      }
    }
  }

  lemma {:induction false} StepKeeps(s: State, step: Step)
    requires Inv(s) && Can(s, step) && Regular(s, step)
    ensures Inv(Apply(s, step))
  {
    StepCounts(s, step);
    StepAnnounced(s, step);
    StepNoLostWakeup(s, step);
  }

  ghost predicate IsRun(states: seq<State>, steps: seq<Step>) {
    && |states| == |steps| + 1 && Init(states[0])
    && forall i :: 0 <= i < |steps| ==>
         Can(states[i], steps[i]) && Regular(states[i], steps[i]) && states[i + 1] == Apply(states[i], steps[i])
  }

  /** In every run, an event is on its way to whoever is parked on a flag that is ready. */
  lemma {:induction false} WakeupsAreNeverLost(states: seq<State>, steps: seq<Step>, i: nat)
    requires IsRun(states, steps) && i < |states|
    ensures Inv(states[i])
  {
    if i > 0 {
      WakeupsAreNeverLost(states, steps, i - 1);
      assert Can(states[i - 1], steps[i - 1]);
      StepKeeps(states[i - 1], steps[i - 1]);
    }
  }

  // ---------------------------------------------------------------- no spinning

  /** After a call that got EAGAIN, wait_for parks on its flags unless an event for one of them came after
      the call began and has not been consumed by another call. */
  lemma {:induction false} EagainParks(s: State, co: int, d: int)
    requires CountsOk(s) && Can(s, Handle(co)) && s.calls[co].answer.Eagain?
    requires Can(Apply(s, Handle(co)), WaitFor(d, s.calls[co].flags))
    ensures var s', c := Apply(s, Handle(co)), s.calls[co];
            d in Apply(s', WaitFor(d, c.flags)).parked <==>
            forall f :: f in c.flags ==> s.total(f) == c.snapshot(f) || s.total(f) == s.consumed(f)
  {
    var s', c := Apply(s, Handle(co)), s.calls[co];
    if f :| f in c.flags && s.total(f) != c.snapshot(f) && s.total(f) != s.consumed(f) {
      assert c.snapshot(f) < s.total(f) && s.consumed(f) < s.total(f);
      assert s'.consumed(f) < s'.total(f);
    } else {
      forall f | f in c.flags ensures s'.total(f) <= s'.consumed(f) {
        assert s.consumed(f) <= s.total(f) && c.snapshot(f) <= s.total(f);
      }
    }
  }

  /** The step tells those who wait for the flags something new. */
  predicate Tells(s: State, step: Step, flags: set<Flag>)
    requires Can(s, step)
  {
    match step
    case Dispatch => s.inflight[0] * flags != {}
    case Handle(co) => s.calls[co].answer.Failed? && s.calls[co].onError * flags != {}
    case _ => false
  }

  /** An event for the flags keeps wait_for from parking; nothing else does, but a failed call. */
  lemma {:induction false} OnlyNewsUnparks(s: State, step: Step, flags: set<Flag>)
    requires Can(s, step)
    ensures Tells(s, step, flags) ==> !MustPark(Apply(s, step), flags)
    ensures !Tells(s, step, flags) && MustPark(s, flags) ==> MustPark(Apply(s, step), flags)
  {
    var s' := Apply(s, step);
    if Tells(s, step, flags) {
      var f :| f in if step.Dispatch? then s.inflight[0] * flags else s.calls[step.co].onError * flags;
      assert f in s'.mask * flags;
    } else if MustPark(s, flags) {
      forall f ensures f !in s'.mask * flags && (f in flags ==> s'.total(f) <= s'.consumed(f)) {
        assert f !in s.mask * flags;
        if step.Dispatch? { assert f !in s.inflight[0] * flags; }
        if step.Handle? && s.calls[step.co].answer.Failed? { assert f !in s.calls[step.co].onError * flags; }
      }
    }
  }

  /** An event for one of the flags is dispatched. */
  predicate Delivers(s: State, step: Step, flags: set<Flag>)
    requires Can(s, step)
  {
    step.Dispatch? && s.inflight[0] * flags != {}
  }

  /** Until an event for its flags is dispatched, a call's snapshot is up to date. */
  lemma {:induction false} SnapshotIsFresh(states: seq<State>, steps: seq<Step>, b: nat, i: nat, co: int,
      flags: set<Flag>)
    requires IsRun(states, steps) && b < i < |states| && steps[b].Begin? && steps[b].co == co && steps[b].flags == flags
    requires forall k :: b < k < i ==>
               steps[k] != Handle(co) && Can(states[k], steps[k]) && !Delivers(states[k], steps[k], flags)
    ensures var s := states[i];
            && co in s.calls && s.calls[co].flags == flags
            && forall f :: f in flags ==> s.total(f) == s.calls[co].snapshot(f)
    decreases i
  {
    var s, step := states[i - 1], steps[i - 1];
    assert Can(s, step) && states[i] == Apply(s, step);
    if b + 1 < i {
      SnapshotIsFresh(states, steps, b, i - 1, co, flags);
      if step.Dispatch? {
        forall f | f in flags ensures states[i].total(f) == s.total(f) { assert f !in s.inflight[0] * flags; }
      }
    }
  }

  /** In every run, whoever gets EAGAIN from a call, with no event for it dispatched since the call began,
      parks when it waits again, until there is news: nobody spins on EAGAIN. */
  lemma {:induction false} NobodySpins(states: seq<State>, steps: seq<Step>, b: nat, i: nat, j: nat, co: int)
    requires IsRun(states, steps) && b < i < j <= |steps| && steps[b].Begin? && steps[b].co == co
    requires steps[i] == Handle(co) && Can(states[i], steps[i]) && states[i].calls[co].answer.Eagain?
    requires forall k :: b < k < i ==>
               steps[k] != Handle(co) && Can(states[k], steps[k]) && !Delivers(states[k], steps[k], steps[b].flags)
    requires forall k :: i < k < j ==> Can(states[k], steps[k]) && !Tells(states[k], steps[k], steps[b].flags)
    ensures MustPark(states[j], steps[b].flags)
    decreases j
  {
    var flags, s, step := steps[b].flags, states[j - 1], steps[j - 1];
    assert states[j] == Apply(s, step) && Can(s, step);
    if i + 1 == j {
      SnapshotIsFresh(states, steps, b, i, co, flags);
    } else {
      NobodySpins(states, steps, b, i, j - 1, co);
      OnlyNewsUnparks(s, step, flags);
    }
  }

  // ---------------------------------------------------------------- failed calls

  /** The state a list of regular steps leads to, if each can be taken. */
  ghost function After(s: State, steps: seq<Step>): Option<State>
    decreases |steps|
  {
    if steps == [] then Some(s)
    else if Can(s, steps[0]) && Regular(s, steps[0]) then After(Apply(s, steps[0]), steps[1..])
    else None
  }

  ghost predicate Reaches(s: State, s': State) {
    exists steps :: After(s, steps) == Some(s')
  }

  lemma {:induction false} Then(s: State, step: Step, s': State)
    requires Can(s, step) && Regular(s, step) && Reaches(Apply(s, step), s')
    ensures Reaches(s, s')
  {
    var more :| After(Apply(s, step), more) == Some(s');
    assert ([step] + more)[1..] == more;
    assert After(s, [step] + more) == Some(s');
  }

  lemma {:induction false} Joined(s: State, steps: seq<Step>, more: seq<Step>)
    requires After(s, steps).Some?
    ensures After(s, steps + more) == After(After(s, steps).value, more)
    decreases |steps|
  {
    hide Can, Regular, Apply;
    if steps == [] {
      assert steps + more == more;
    } else {
      assert (steps + more)[1..] == steps[1..] + more;
      Joined(Apply(s, steps[0]), steps[1..], more);
    }
  }

  lemma {:induction false} Onward(s: State, t: State, u: State)
    requires Reaches(s, t) && Reaches(t, u)
    ensures Reaches(s, u)
  {
    var steps :| After(s, steps) == Some(t);
    var more :| After(t, more) == Some(u);
    Joined(s, steps, more);
  }

  lemma {:induction false} Here(s: State)
    ensures Reaches(s, s)
  {
    assert After(s, []) == Some(s);
  }

  lemma {:induction false} AfterKeeps(s: State, steps: seq<Step>)
    requires Inv(s) && After(s, steps).Some?
    ensures Inv(After(s, steps).value)
    decreases |steps|
  {
    if steps != [] {
      StepKeeps(s, steps[0]);
      AfterKeeps(Apply(s, steps[0]), steps[1..]);
    }
  }

  /** A coroutine that is not in use yet. */
  lemma {:induction false} Unused(a: set<int>) returns (co: int)
    ensures forall c :: c in a ==> c < co
    decreases a
  {
    co := 0;
    if c :| c in a {
      var b := Unused(a - {c});
      co := if b <= c then c + 1 else b;
      assert forall x :: x in a ==> x == c || x in a - {c};
    }
  }

  /** Waiting for a quiet flag that nothing tells of loses the wakeup. */
  lemma {:induction false} WaitIsLost(s: State, f: Flag) returns (bad: State)
    requires Quiet(s, f) && f !in s.mask && s.total(f) <= s.consumed(f)
    ensures Reaches(s, bad) && !NoLostWakeup(bad)
  {
    var co := Unused(s.calls.Keys + s.parked.Keys);
    assert co !in s.calls && co !in s.parked;
    var step := WaitFor(co, {f});
    bad := Apply(s, step);
    assert MustPark(s, {f}) && bad.parked[co] == {f};
    assert Quiet(bad, f);
    Here(bad);
    Then(s, step, bad);
  }

  /** Where the test fails on a quiet flag, the wakeup can be lost. */
  lemma {:induction false} UntestedEndsBadly(s: State, co: int, f: Flag) returns (bad: State)
    requires Inv(s) && Can(s, Handle(co)) && s.calls[co].answer.Failed? && f in s.calls[co].flags
    requires Quiet(s, f) && !KeepsNotice(s, co, f)
    ensures Reaches(Apply(s, Handle(co)), bad) && !NoLostWakeup(bad)
  {
    var s' := Apply(s, Handle(co));
    assert Quiet(s', f) && s'.consumed(f) == s'.total(f) == s.calls[co].snapshot(f);
    if f !in s'.mask {
      bad := WaitIsLost(s', f);
    } else {
      var e :| e in s.calls && s.calls[e].answer.Eagain? && f in s.calls[e].flags;
      assert e in s'.calls && s'.calls[e] == s.calls[e];
      var s2 := Apply(s', Handle(e));
      assert Quiet(s2, f);
      bad := WaitIsLost(s2, f);
      Then(s', Handle(e), bad);
    }
  }

  lemma {:induction false} TestedKeeps(s: State, co: int)
    requires Inv(s) && Can(s, Handle(co)) && s.calls[co].answer.Failed?
    requires forall f :: f in s.calls[co].flags && Quiet(s, f) ==> KeepsNotice(s, co, f)
    ensures Inv(Apply(s, Handle(co)))
  {
    var s', c := Apply(s, Handle(co)), s.calls[co];
    StepCounts(s, Handle(co));
    StepNoLostWakeup(s, Handle(co));
    forall f ensures Noticed(s', f) {
      if Quiet(s', f) {
        QuietBefore(s, Handle(co), f);
        StaleBefore(s, Handle(co), f);
        assert Noticed(s, f);
      }
    }
    forall d, f | d in s'.calls && s'.calls[d].answer.Eagain? && f in s'.calls[d].flags
      ensures Announced(s', f, s'.calls[d].snapshot(f))
    {
      assert Announced(s, f, s.calls[d].snapshot(f));
      StaysAnnounced(s, Handle(co), f, s.calls[d].snapshot(f));
    }
  }

  /** Exactly when ending a failed call is harmless: if every flag of it that is ready with no event
      coming passes the test. The runs above ask for the test on all flags, since a program cannot
      see which are ready. */
  lemma {:induction false} FailedCallIsExact(s: State, co: int)
    requires Inv(s) && Can(s, Handle(co)) && s.calls[co].answer.Failed?
    ensures (forall f :: f in s.calls[co].flags && Quiet(s, f) ==> KeepsNotice(s, co, f))
            <==> (forall s' :: Reaches(Apply(s, Handle(co)), s') ==> NoLostWakeup(s'))
  {
    if f :| f in s.calls[co].flags && Quiet(s, f) && !KeepsNotice(s, co, f) {
      var bad := UntestedEndsBadly(s, co, f);
    } else {
      TestedKeeps(s, co);
      hide Inv;
      forall s' | Reaches(Apply(s, Handle(co)), s') ensures NoLostWakeup(s') {
        var steps :| After(Apply(s, Handle(co)), steps) == Some(s');
        AfterKeeps(Apply(s, Handle(co)), steps);
        InvIsNoLostWakeup(s');
      }
    }
  }

  lemma {:induction false} InvIsNoLostWakeup(s: State)
    requires Inv(s)
    ensures NoLostWakeup(s)
  {
  }

  // ---------------------------------------------------------------- a hangup that is lost

  const READ := {IN, RDHUP, HUP, ERR}

  function Fresh(): State {
    State({}, {}, [], {IN, OUT}, _ => 0, _ => 0, map[], map[])
  }

  /** A read runs and gets EAGAIN. */
  function Refused(): State {
    Apply(Apply(Fresh(), Begin(0, READ, {ERR})), Run(0, Eagain))
  }

  lemma {:induction false} RefusedIs()
    ensures Refused() == Fresh().(calls := map[0 := Call(READ, {ERR}, Fresh().total, Eagain)])
            && Reaches(Fresh(), Refused())
  {
    var s0 := Fresh();
    var s1 := Apply(s0, Begin(0, READ, {ERR}));
    var s2 := Apply(s1, Run(0, Eagain));
    assert s2.calls == map[0 := Call(READ, {ERR}, s0.total, Eagain)];
    Here(s2);
    hide Reaches;
    Then(s1, Run(0, Eagain), s2);
    Then(s0, Begin(0, READ, {ERR}), s2);
  }

  /** The peer hangs up, and the event is dispatched. */
  function HungUp(): State {
    Apply(Apply(Apply(Refused(), Ready({RDHUP})), EpollWait({RDHUP})), Dispatch)
  }

  lemma {:induction false} HungUpIs()
    ensures var s := HungUp();
            && Reaches(Refused(), s) && s.ready == {RDHUP} && s.edges == {} && s.inflight == []
                && s.mask == {IN, OUT, RDHUP}
            && s.calls == Refused().calls && s.parked == map[] && s.consumed == Fresh().consumed
            && s.total(RDHUP) == 1 && s.total(HUP) == 0
  {
    RefusedIs();
    hide Refused, Reaches;
    var s2 := Refused();
    var s3 := Apply(s2, Ready({RDHUP}));
    var s4 := Apply(s3, EpollWait({RDHUP}));
    assert s4.inflight == [{RDHUP}];
    var s5 := Apply(s4, Dispatch);
    assert s5.inflight == [];
    Here(s5);
    Then(s4, Dispatch, s5);
    Then(s3, EpollWait({RDHUP}), s5);
    Then(s2, Ready({RDHUP}), s5);
  }

  /** The result of that read is handled, and the next read fails with an error. */
  function Failing(): State {
    RefusedIs();
    HungUpIs();
    Apply(Apply(Apply(HungUp(), Handle(0)), Begin(1, READ, {ERR})), Run(1, Failed))
  }

  lemma {:induction false} FailingIs()
    ensures var s := Failing();
            && Reaches(HungUp(), s) && s.ready == {RDHUP} && s.edges == {} && s.inflight == [] && s.mask == {OUT}
                && s.parked == map[]
            && s.calls == map[1 := Call(READ, {ERR}, HungUp().total, Failed)] && s.total == HungUp().total
            && s.consumed(RDHUP) == 0 && s.consumed(HUP) == 0
  {
    RefusedIs();
    HungUpIs();
    hide HungUp, Refused, Reaches;
    var s0 := HungUp();
    var s1 := Apply(s0, Handle(0));
    assert s1.calls == map[];
    var s2 := Apply(s1, Begin(1, READ, {ERR}));
    var s3 := Apply(s2, Run(1, Failed));
    assert s3.calls == map[1 := Call(READ, {ERR}, s0.total, Failed)];
    Here(s3);
    Then(s2, Run(1, Failed), s3);
    Then(s1, Begin(1, READ, {ERR}), s3);
    Then(s0, Handle(0), s3);
  }

  /** From a fresh registration, by regular steps up to a failed call that fails the test: then
      wait_for_rdhup parks on a hangup that nobody will report. */
  lemma {:induction false} HangupIsLost()
    ensures Init(Fresh()) && Reaches(Fresh(), Refused()) && Reaches(Refused(), HungUp()) && Reaches(HungUp(), Failing())
    ensures Can(Failing(), Handle(1)) && !KeepsNotice(Failing(), 1, RDHUP)
    ensures var s := Apply(Failing(), Handle(1));
            Can(s, WaitFor(2, {RDHUP, HUP})) && !NoLostWakeup(Apply(s, WaitFor(2, {RDHUP, HUP})))
  {
    RefusedIs();
    HungUpIs();
    FailingIs();
    hide Refused, HungUp, Failing, Reaches;
    var s := Apply(Failing(), Handle(1));
    assert s.mask == {OUT, ERR} && s.consumed(RDHUP) == 1 && s.total(RDHUP) == 1 && s.total(HUP) == 0;
    var s' := Apply(s, WaitFor(2, {RDHUP, HUP}));
    assert s'.parked[2] == {RDHUP, HUP} && RDHUP in s'.ready && !Coming(s', RDHUP);
  }
}
