/** Descriptor handles over whole runs. */
module FdRuns {
  import opened Prelude
  import opened FdTables
  import opened FdInvariant
  import opened FdSafety
  import opened FdGuard
  import opened FdLive

  /** A run: states and the steps between them. */
  ghost predicate IsRun(states: seq<State>, steps: seq<Step>) {
    && |states| == |steps| + 1
    && forall i :: 0 <= i < |steps| ==> Can(states[i], steps[i]) && states[i + 1] == Apply(states[i], steps[i])
  }

  /** The condition on the two steps that start a close: the close can never run, or no unshare out
      of the table that has still to run has the number. */
  predicate Guarded(s: State, step: Step)
    requires Can(s, step)
  {
    match step
    case DoGc(t, near) => s.tasks[t].dead || NotBeingCopied(s, s.tasks[t].py, near)
    case DoInvalidate(h) =>
      LastHandle(s, h) ==> s.tasks[s.handles[h].task].dead || NotBeingCopied(s, CellOf(s, h).table, s.handles[h].near)
    case _ => true
  }

  ghost predicate IsGuarded(states: seq<State>, steps: seq<Step>)
    requires IsRun(states, steps)
  {
    forall i :: 0 <= i < |steps| ==> Guarded(states[i], steps[i])
  }

  /** Any number of tasks in kernel tables, with open numbers the program does not know about. */
  ghost predicate Init(s: State) {
    && s.handles == map[] && s.tracked == map[] && s.legacy == {} && s.closes == map[] && s.arrivals == map[]
        && s.reserved == map[]
    && (forall t :: t in s.tasks ==>
         t < s.next && s.tasks[t] == Task(s.tasks[t].py, Stable, [], 0, s.tasks[t].dead) && s.tasks[t].py in s.tables)
    && (forall t :: t in s.tables ==> t < s.next)
    && (forall k :: k in s.kernel ==> k.table in s.tables && k in s.owner)
    && (forall k :: k in s.owner ==> k in s.kernel && s.owner[k] == Leaked)
  }

  lemma {:induction false} InitInv(s: State)
    requires Init(s)
    ensures Inv(s)
  {
  }

  lemma {:induction false} GuardIsCare(s: State, step: Step)
    requires Inv(s) && ReservedOk(s) && Can(s, step)
    ensures Guarded(s, step) <==> Careful(s, step)
  {
    hide TablesOk, TasksOk, PipesOk, ClosesOk, ArrivalsOk, TrackedOk, HandlesOk, LegacyOk, FreshOk, ReservedOk,
        CloseSafe, NotBeingCopied;
    match step
    case DoGc(t, near) => GuardIsCloseSafe(s, s.tasks[t].py, near);
    case DoInvalidate(h) => GuardIsCloseSafe(s, CellOf(s, h).table, s.handles[h].near);
    case _ =>
  }

  /** Everything that guarded steps keep. */
  ghost predicate Sound(s: State) {
    Inv(s) && ReservedOk(s) && LiveOk(s) && SetsOk(s) && QueuedOk(s)
  }

  lemma {:induction false} InitSound(s: State)
    requires Init(s)
    ensures Sound(s)
  {
    InitInv(s);
    hide Inv;
  }

  lemma {:induction false} StepSound(s: State, step: Step)
    requires Sound(s) && Can(s, step)
    ensures Guarded(s, step) ==> Sound(Apply(s, step))
  {
    hide Inv, ReservedOk, LiveOk, SetsOk, QueuedOk, Guarded, Apply, Can, Careful;
    GuardIsCare(s, step);
    if Guarded(s, step) {
      StepKeeps(s, step);
      ReservedStep(s, step);
      StepLive(s, step);
      StepSets(s, step);
      StepQueued(s, step);
    }
  }

  /** In every interleaving whose closes start guarded, every valid handle stays good. */
  lemma {:induction false} HandlesStaySafe(states: seq<State>, steps: seq<Step>, i: nat)
    requires IsRun(states, steps) && Init(states[0]) && IsGuarded(states, steps) && i < |states|
    ensures Sound(states[i]) && Safe(states[i])
  {
    if i == 0 {
      InitSound(states[0]);
    } else {
      HandlesStaySafe(states, steps, i - 1);
      assert Can(states[i - 1], steps[i - 1]) && Guarded(states[i - 1], steps[i - 1]);
      hide Sound;
      StepSound(states[i - 1], steps[i - 1]);
    }
    SoundIsSafe(states[i]);
  }

  lemma {:induction false} SoundIsSafe(s: State)
    requires Sound(s)
    ensures Safe(s)
  {
    InvIsSafe(s);
  }

  /** In such a run, every close that runs finds its number open, and open for it alone; so an
      opened number is closed at most once. */
  lemma {:induction false} EveryCloseIsItsOwn(states: seq<State>, steps: seq<Step>, i: nat)
    requires IsRun(states, steps) && Init(states[0]) && IsGuarded(states, steps) && i < |steps| && steps[i].DoRunClose?
    ensures var s, t := states[i], steps[i].t;
            && CanRunClose(s, t)
            && var k := Cell(KernelOf(s.tasks[t]), s.closes[NextCall(s, t).c].near);
               && k in s.kernel && k in s.owner && s.owner[k] == ClosedBy(NextCall(s, t).c) && k !in s.tracked
               && k !in states[i + 1].kernel
  {
    HandlesStaySafe(states, steps, i);
    assert Can(states[i], steps[i]) && states[i + 1] == Apply(states[i], steps[i]);
    CloseHitsItsOwn(states[i], steps[i].t);
  }

  /** In such a run, the number an open returned is never already known when its handle is made. */
  lemma {:induction false} EveryOpenIsNew(states: seq<State>, steps: seq<Step>, i: nat)
    requires IsRun(states, steps) && Init(states[0]) && IsGuarded(states, steps) && i < |steps| && steps[i].DoOnOpened?
    requires steps[i].t in states[i].tasks && states[i].tasks[steps[i].t].phase.Stable?
    ensures var s, t := states[i], steps[i].t;
            && CanSettle(s, t) && !AlreadyKnown(s, t)
            && var a := s.arrivals[s.tasks[t].pipe[0].o];
               s.next in states[i + 1].handles && states[i + 1].handles[s.next] == Handle(t, a.cell.near, a.file, true)
  {
    HandlesStaySafe(states, steps, i);
    assert Can(states[i], steps[i]) && states[i + 1] == Apply(states[i], steps[i]);
    OpenedIsNeverKnown(states[i], steps[i].t);
  }

  // ---------------------------------------------------------------- continuations

  /** The state a list of guarded steps leads to, if each can be taken. */
  function After(s: State, steps: seq<Step>): Option<State>
    decreases |steps|
  {
    if steps == [] then Some(s)
    else if Can(s, steps[0]) && Guarded(s, steps[0]) then After(Apply(s, steps[0]), steps[1..])
    else None
  }

  ghost predicate Reaches(s: State, s': State) {
    exists steps :: After(s, steps) == Some(s')
  }

  lemma {:induction false} Joined(s: State, steps: seq<Step>, more: seq<Step>)
    requires After(s, steps).Some?
    ensures After(s, steps + more) == After(After(s, steps).value, more)
    decreases |steps|
  {
    hide Can, Guarded, Apply;
    if steps == [] {
      assert steps + more == more;
    } else {
      assert (steps + more)[1..] == steps[1..] + more;
      Joined(Apply(s, steps[0]), steps[1..], more);
    }
  }

  lemma {:induction false} Here(s: State)
    ensures Reaches(s, s)
  {
    assert After(s, []) == Some(s);
  }

  lemma {:induction false} Onward(s: State, t: State, u: State)
    requires Reaches(s, t) && Reaches(t, u)
    ensures Reaches(s, u)
  {
    var steps :| After(s, steps) == Some(t);
    var more :| After(t, more) == Some(u);
    Joined(s, steps, more);
  }

  lemma {:induction false} Taken(s: State, step: Step)
    requires Can(s, step) && Guarded(s, step)
    ensures Reaches(s, Apply(s, step))
  {
    hide Can, Guarded, Apply;
    assert After(s, [step]) == Some(Apply(s, step)) by { assert [step][1..] == []; }
  }

  lemma {:induction false} AfterIsSafe(s: State, steps: seq<Step>)
    requires Sound(s) && After(s, steps).Some?
    ensures Safe(After(s, steps).value)
    decreases |steps|
  {
    hide Sound, Can, Guarded, Apply;
    if steps == [] {
      SoundIsSafe(s);
    } else {
      StepSound(s, steps[0]);
      AfterIsSafe(Apply(s, steps[0]), steps[1..]);
    }
  }

  lemma {:induction false} ReachedIsSafe(s: State, s': State)
    requires Sound(s) && Reaches(s, s')
    ensures Safe(s')
  {
    hide Sound;
    var steps :| After(s, steps) == Some(s');
    AfterIsSafe(s, steps);
  }
}
