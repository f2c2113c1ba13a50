/**
 The SIGCHLD protocol: one coroutine reads the signalfd and swaps the current Event, waitpid
 coroutines save the current Event before they call waitid. One pending bit stands for any
 number of signals.
 */
module Sigchld {
  /** Where a waitpid coroutine is; `ev` is the Event it saved. */
  datatype Phase =
    | Idle
    | Saved(ev: nat)                    // has saved the Event, waitid has not run
    | Checked(ev: nat, found: bool)     // waitid has run, its result is on the way
    | Waiting(ev: nat)                  // next_sigchld is set

  datatype Waiter = Waiter(child: int, phase: Phase)

  /** Events are numbered as they are created; the last one is `next_signal`. */
  datatype State = State(
    unreported: map<int, bool>,     // the child has a state change that waitid would report
    pending: bool,                  // SIGCHLD is pending
    held: bool,                     // a signalfd read has taken it and is not processed
    current: nat,
    fired: set<nat>,                // Events that are set
    waiters: map<int, Waiter>)

  datatype Step =
    | Change(child: int)
    | ReadRuns
    | Swap
    | Save(w: int)
    | WaitidRuns(w: int)
    | Result(w: int)

  predicate Can(s: State, step: Step) {
    match step
    case Change(child) => child in s.unreported
    case ReadRuns => s.pending && !s.held
    case Swap => s.held
    case Save(w) => w in s.waiters &&
        (s.waiters[w].phase.Idle? || (s.waiters[w].phase.Waiting? && s.waiters[w].phase.ev in s.fired))
    case WaitidRuns(w) => w in s.waiters && s.waiters[w].phase.Saved? && s.waiters[w].child in s.unreported
    case Result(w) => w in s.waiters && s.waiters[w].phase.Checked?
  }

  function Move(s: State, w: int, phase: Phase): State
    requires w in s.waiters
  {
    s.(waiters := s.waiters[w := s.waiters[w].(phase := phase)])
  }

  function Apply(s: State, step: Step): State
    requires Can(s, step)
  {
    match step
    case Change(child) => s.(unreported := s.unreported[child := true], pending := true)
    case ReadRuns => s.(pending := false, held := true)
    case Swap => s.(held := false, fired := s.fired + {s.current}, current := s.current + 1)
    case Save(w) => Move(s, w, Saved(s.current))
    case WaitidRuns(w) =>
      var child, ev := s.waiters[w].child, s.waiters[w].phase.ev;
      Move(s.(unreported := s.unreported[child := false]), w, Checked(ev, s.unreported[child]))
    case Result(w) =>
      var p := s.waiters[w].phase;
      Move(s, w, if p.found then Idle else Waiting(p.ev))
  }

  /** waitid found nothing; the coroutine relies on its saved Event. */
  predicate Relies(p: Phase) {
    p.Waiting? || (p.Checked? && !p.found)
  }

  ghost predicate Inv(s: State) {
    && (forall e :: e in s.fired <==> 0 <= e < s.current)
    && (forall w :: w in s.waiters ==> s.waiters[w].child in s.unreported)
    && (forall w :: w in s.waiters && !s.waiters[w].phase.Idle? ==> s.waiters[w].phase.ev <= s.current)
    && (forall w :: w in s.waiters && Relies(s.waiters[w].phase) && s.unreported[s.waiters[w].child] ==>
          s.waiters[w].phase.ev in s.fired || s.pending || s.held)
  }

  lemma {:induction false} StepKeeps(s: State, step: Step)
    requires Inv(s) && Can(s, step)
    ensures Inv(Apply(s, step))
  {
  }

  ghost predicate Init(s: State) {
    && s.current == 0 && s.fired == {} && !s.held
    && forall w :: w in s.waiters ==> s.waiters[w].phase.Idle? && s.waiters[w].child in s.unreported
  }

  ghost predicate IsRun(states: seq<State>, steps: seq<Step>) {
    && |states| == |steps| + 1 && Init(states[0])
    && forall i :: 0 <= i < |steps| ==> Can(states[i], steps[i]) && states[i + 1] == Apply(states[i], steps[i])
  }

  lemma {:induction false} RunKeeps(states: seq<State>, steps: seq<Step>, i: nat)
    requires IsRun(states, steps) && i < |states|
    ensures Inv(states[i])
  {
    if i > 0 {
      RunKeeps(states, steps, i - 1);
      assert Can(states[i - 1], steps[i - 1]);
      StepKeeps(states[i - 1], steps[i - 1]);
    }
  }

  /** Whoever waits on an unset Event for a child with an unreported change: the signal is pending
      or held by an unprocessed read, and processing that read sets this very Event. */
  lemma {:induction false} SigchldIsNeverMissed(states: seq<State>, steps: seq<Step>, i: nat, w: int)
    requires IsRun(states, steps) && i < |states|
    requires var s := states[i]; w in s.waiters && s.waiters[w].phase.Waiting? && s.waiters[w].phase.ev !in s.fired
    ensures var s := states[i];
            && s.waiters[w].child in s.unreported
            && (s.unreported[s.waiters[w].child] ==> s.pending || s.held)
            && (s.held ==> s.waiters[w].phase.ev in Apply(s, Swap).fired && Can(Apply(s, Swap), Save(w)))
  {
    RunKeeps(states, steps, i);
  }

  /** A coroutine in waitpid returns if and only if its waitid found a change, which nobody else reports; if
      it found none, the coroutine waits on the Event that was current when it saved it. */
  lemma {:induction false} ReturnsIffReported(states: seq<State>, steps: seq<Step>, i: nat, j: nat, k: nat, w: int)
    requires IsRun(states, steps) && i < j < k < |steps|
    requires steps[i] == Save(w) && steps[j] == WaitidRuns(w) && steps[k] == Result(w)
    requires forall m :: i < m < k && m != j ==>
               steps[m] != Save(w) && steps[m] != WaitidRuns(w) && steps[m] != Result(w)
    ensures w in states[j].waiters && w in states[k + 1].waiters
    ensures var child := states[j].waiters[w].child;
            && child in states[j].unreported && child in states[j + 1].unreported && !states[j + 1].unreported[child]
            && states[k + 1].waiters[w] == Waiter(child,
                 if states[j].unreported[child] then Idle else Waiting(states[i].current))
  {
    assert Can(states[i], steps[i]) && states[i + 1] == Apply(states[i], steps[i]);
    Stays(states, steps, i + 1, j, w);
    assert Can(states[j], steps[j]) && states[j + 1] == Apply(states[j], steps[j]);
    Stays(states, steps, j + 1, k, w);
    assert Can(states[k], steps[k]) && states[k + 1] == Apply(states[k], steps[k]);
  }

  lemma {:induction false} Stays(states: seq<State>, steps: seq<Step>, i: nat, j: nat, w: int)
    requires IsRun(states, steps) && i <= j <= |steps| && w in states[i].waiters
    requires forall m :: i <= m < j ==> steps[m] != Save(w) && steps[m] != WaitidRuns(w) && steps[m] != Result(w)
    ensures w in states[j].waiters && states[j].waiters[w] == states[i].waiters[w]
  {
    if i < j {
      Stays(states, steps, i, j - 1, w);
      assert Can(states[j - 1], steps[j - 1]) && states[j] == Apply(states[j - 1], steps[j - 1]);
    }
  }

  /** Saving the Event only after waitid would miss the signal: the order of the two reads in
      waitpid is needed. */
  lemma {:induction false} LateSaveMisses(s: State, w: int, child: int)
    requires Inv(s) && w in s.waiters && s.waiters[w] == Waiter(child, Saved(s.current)) && child in s.unreported
    requires !s.unreported[child] && !s.pending && !s.held
    ensures var ran := Apply(s, WaitidRuns(w));
            var swapped := Apply(Apply(Apply(ran, Change(child)), ReadRuns), Swap);
            var late := Move(swapped, w, Waiting(swapped.current));
            !Inv(late) && late.unreported[child] && !late.pending && !late.held && swapped.current !in late.fired
  {
    var ran := Apply(s, WaitidRuns(w));
    var swapped := Apply(Apply(Apply(ran, Change(child)), ReadRuns), Swap);
    var late := Move(swapped, w, Waiting(swapped.current));
    assert late.waiters[w] == Waiter(child, Waiting(swapped.current));
  }

  // ---------------------------------------------------------------- the objects

  class Event {
    var isSet: bool
    var waiting: seq<int>       // continuations

    constructor ()
      ensures !isSet && waiting == []
    {
      isSet, waiting := false, [];
    }

    /** A set Event does not block. */
    method Wait(continuation: int) returns (parks: bool)
      modifies this
      ensures parks <==> !old(isSet)
      ensures waiting == (if parks then old(waiting) + [continuation] else old(waiting)) && isSet == old(isSet)
    {
      parks := !isSet;
      if parks { waiting := waiting + [continuation]; }
    }

    /** The list is not emptied: an Event must be set only once. */
    method Set() returns (resumed: seq<int>)
      modifies this
      ensures isSet && resumed == waiting == old(waiting)
    {
      isSet, resumed := true, [];
      for i := 0 to |waiting|
        invariant resumed == waiting[..i] && waiting == old(waiting) && isSet
      {
        resumed := resumed + [waiting[i]];
      }
    }
  }

  /** The reader of the signalfd, with the state it is part of: its Events so far, in order. */
  class AsyncSignalfd {
    var nextSignal: Event
    ghost var events: seq<Event>
    ghost var model: State

    ghost predicate Valid()
      reads this, set e | e in events
    {
      && events != [] && nextSignal == events[|events| - 1] && model.current == |events| - 1 && Inv(model)
      && (forall i, j :: 0 <= i < j < |events| ==> events[i] != events[j])
      && (forall i :: 0 <= i < |events| ==> (events[i].isSet <==> i in model.fired))
    }

    constructor (ghost started: State)
      requires Init(started) && Inv(started)
      ensures Valid() && fresh(nextSignal) && model == started && events == [nextSignal]
    {
      var ev := new Event();
      nextSignal, events, model := ev, [ev], started;
    }

    /** Steps of the kernel and of waitpid coroutines: none of them sets an Event. */
    ghost method Elsewhere(step: Step)
      requires Valid() && Can(model, step) && !step.Swap?
      modifies this`model
      ensures Valid() && model == Apply(old(model), step)
    {
      StepKeeps(model, step);
      model := Apply(model, step);
    }

    /** Exactly the current Event is set, once, and a new one takes its place. */
    method OnRead() returns (resumed: seq<int>)
      requires Valid() && model.held
      modifies this, nextSignal
      ensures Valid() && model == Apply(old(model), Swap) && fresh(nextSignal) && events == old(events) + [nextSignal]
      ensures old(nextSignal).isSet && resumed == old(nextSignal.waiting)
    {
      StepKeeps(model, Swap);
      hide Inv;
      var ev := nextSignal;
      nextSignal := new Event();
      resumed := ev.Set();
      events, model := events + [nextSignal], Apply(model, Swap);
    }
  }
}
