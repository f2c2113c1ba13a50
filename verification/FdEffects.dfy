/** What the steps do to handles and closes: whose they are, and what they name, for life. */
module FdEffects {
  import opened Prelude
  import opened FdTables
  import opened FdInvariant
  import opened FdSafety
  import opened FdRuns

  /** The handle that a step makes: on the task that asked for it, for the number and file of the
      descriptor that was opened, shared or inherited. */
  function Made(s: State, step: Step): Option<Handle>
    requires Can(s, step)
  {
    match step
    case DoOnOpened(t) =>
      var a := s.arrivals[s.tasks[t].pipe[0].o];
      if AlreadyKnown(s, t) || s.tasks[t].phase.Unsharing? then None else Some(Handle(t, a.cell.near, a.file, true))
    case DoForTask(h, t) => Some(Handle(t, s.handles[h].near, s.handles[h].file, true))
    case DoInherit(h, t) => Some(Handle(t, s.handles[h].near, s.handles[h].file, true))
    case _ => None
  }

  /** The handle that a step invalidates. */
  function Ended(step: Step): Option<Id> {
    match step
    case DoRelease(h) => Some(h)
    case DoInvalidate(h) => Some(h)
    case _ => None
  }

  /** All handles are as before but the one made, the one invalidated, and the one that is gone. */
  ghost predicate HandlesChange(s: State, s': State, made: Option<Handle>, ended: Option<Id>, gone: Option<Id>) {
    && (forall h :: h in s'.handles <==> (h in s.handles && gone != Some(h)) || (made.Some? && h == s.next))
    && (made.Some? ==> s.next !in s.handles && s'.handles[s.next] == made.value)
    && (forall h :: h in s.handles && h in s'.handles ==>
         s'.handles[h] == if ended == Some(h) then s.handles[h].(valid := false) else s.handles[h])
  }

  /** What every step does to the handles. */
  lemma {:induction false} HandlesAfter(s: State, step: Step)
    requires FreshOk(s) && Can(s, step)
    ensures HandlesChange(s, Apply(s, step), Made(s, step), Ended(step),
                if step.DoCollect? then Some(step.h) else None)
  {
    hide SubmitOpen, RunOpen, RunClose, RunUnshare, OnOpened, OnClosed, OnUnshared, Share, Untrack, Invalidate, Collect,
        Gc, SubmitClose, StartUnshare, Hang, HangClose, CloneShared, CloneCopied, HandlesChange,
        FreshOk, AlreadyKnown;
    match step
    case DoOnOpened(t) => OpenedHandles(s, t);
    case DoForTask(h, t) => MadeHandles(s, t, s.handles[h].near, s.handles[h].file); SharedIs(s, h, t);
    case DoInherit(h, t) => MadeHandles(s, t, s.handles[h].near, s.handles[h].file); SharedIs(s, h, t);
    case DoRelease(h) => ReleasedHandles(s, h);
    case DoInvalidate(h) => InvalidatedHandles(s, h);
    case DoCollect(h) => CollectedHandles(s, h);
    case DoRunUnshare(t) => SameHandles(s, RunUnshare(s, t)) by { SentHandles(s, t); }
    case DoStartUnshare(t) => SameHandles(s, StartUnshare(s, t)) by { SentHandles(s, t); }
    case DoHang(t) => SameHandles(s, Hang(s, t)) by { SentHandles(s, t); }
    case _ => SameHandles(s, Apply(s, step)) by { OtherHandles(s, step); }
  }

  lemma {:induction false} SameHandles(s: State, s': State)
    requires s'.handles == s.handles
    ensures HandlesChange(s, s', None, None, None)
  {
  }

  lemma {:induction false} MadeHandles(s: State, t: Id, near: Id, file: Id)
    requires FreshOk(s) && t in s.tasks
    ensures HandlesChange(s, MakeHandle(s, t, near, file), Some(Handle(t, near, file, true)), None, None)
  {
  }

  lemma {:induction false} SharedIs(s: State, h: Id, t: Id)
    requires CanShare(s, h, t) || CanInherit(s, h, t)
    ensures Share(s, h, t) == MakeHandle(s, t, s.handles[h].near, s.handles[h].file)
  {
    hide MakeHandle;
  }

  lemma {:induction false} OpenedHandles(s: State, t: Id)
    requires FreshOk(s) && CanSettle(s, t)
    ensures HandlesChange(s, OnOpened(s, t), Made(s, DoOnOpened(t)), None, None)
  {
    hide Take, HandlesChange, MakeHandle, FreshOk, AlreadyKnown;
    SettledIs(s, t);
    hide Settle;
    if Made(s, DoOnOpened(t)).Some? {
      var a := s.arrivals[s.tasks[t].pipe[0].o];
      MadeHandles(Settle(s, t), t, a.cell.near, a.file);
      AsIfFrom(Settle(s, t), s, MakeHandle(Settle(s, t), t, a.cell.near, a.file),
          Some(Handle(t, a.cell.near, a.file, true)));
    } else {
      SameHandles(s, Settle(s, t));
    }
  }

  lemma {:induction false} SettledIs(s: State, t: Id)
    requires FreshOk(s) && CanSettle(s, t)
    ensures var s' := Settle(s, t); FreshOk(s') && s'.handles == s.handles && s'.next == s.next && t in s'.tasks
  {
    hide Take;
  }

  lemma {:induction false} AsIfFrom(r: State, s: State, s': State, made: Option<Handle>)
    requires HandlesChange(r, s', made, None, None) && r.handles == s.handles && r.next == s.next
    ensures HandlesChange(s, s', made, None, None)
  {
  }

  lemma {:induction false} ReleasedHandles(s: State, h: Id)
    requires Current(s, h)
    ensures HandlesChange(s, Untrack(s, h), None, Some(h), None)
  {
  }

  lemma {:induction false} InvalidatedHandles(s: State, h: Id)
    requires Current(s, h)
    ensures HandlesChange(s, Invalidate(s, h), None, Some(h), None)
  {
    hide Push;
    assert Invalidate(s, h).handles == Untrack(s, h).handles;
  }

  lemma {:induction false} CollectedHandles(s: State, h: Id)
    requires CanCollect(s, h)
    ensures HandlesChange(s, Collect(s, h), None, None, Some(h))
  {
  }

  /** The steps of an unshare. */
  lemma {:induction false} SentHandles(s: State, t: Id)
    requires t in s.tasks
    ensures CanRunUnshare(s, t) ==> RunUnshare(s, t).handles == s.handles && RunUnshare(s, t).next == s.next
    ensures CanStartUnshare(s, t) ==> StartUnshare(s, t).handles == s.handles && StartUnshare(s, t).next == s.next + 1
    ensures Hang(s, t).handles == s.handles && Hang(s, t).next == s.next
  {
    hide FreshTable, Claims, CopyOf, Leak, Ran;
  }

  lemma {:induction false} OtherHandles(s: State, step: Step)
    requires Can(s, step) && Made(s, step).None? && Ended(step).None? && !step.DoCollect? && !step.DoOnOpened?
    requires !step.DoRunUnshare? && !step.DoStartUnshare? && !step.DoHang?
    ensures Apply(s, step).handles == s.handles
  {
    hide FreshTable, Claims, CopyOf, Leak, Take, Push, Ran, FdHandles, RunUnshare, OnOpened, Share, Untrack,
        Invalidate, Collect, StartUnshare, Hang;
  }

  /** The close that a step starts: through the task of the last handle, or the one that collects. */
  function Started(s: State, step: Step): Option<Close>
    requires Can(s, step)
  {
    match step
    case DoInvalidate(h) =>
      var t, near := s.handles[h].task, s.handles[h].near;
      if LastHandle(s, h) then Some(Close(t, near, s.tasks[t].py, s.tasks[t].py, true, Some(h))) else None
    case DoGc(t, near) => Some(Close(t, near, s.tasks[t].py, s.tasks[t].py, false, None))
    case _ => None
  }

  /** All closes are as before but the one started, and those that have run or cannot run. */
  ghost predicate ClosesChange(s: State, s': State, started: Option<Close>, done: bool) {
    && (forall c :: c in s'.closes && c !in s.closes ==> started.Some? && c == s.next)
    && (started.Some? ==> s.next in s'.closes && s'.closes[s.next] == started.value)
    && (forall c :: c in s.closes && c in s'.closes ==> SameClose(s.closes[c], s'.closes[c]))
    && (!done ==> forall c :: c in s.closes ==> c in s'.closes)
  }

  /** No step starts another close, or gives a close another task, number or table to return to. */
  lemma {:induction false} ClosesAfter(s: State, step: Step)
    requires FreshOk(s) && Can(s, step)
    ensures ClosesChange(s, Apply(s, step), Started(s, step), step.DoRunClose? || step.DoHangClose?)
  {
    hide SubmitOpen, RunOpen, RunClose, RunUnshare, OnOpened, OnClosed, OnUnshared, Share, Untrack, Invalidate, Collect,
        Gc, SubmitClose, StartUnshare, Hang, HangClose, CloneShared, CloneCopied, ClosesChange,
        FreshOk, LastHandle;
    match step
    case DoInvalidate(h) => InvalidatedCloses(s, h);
    case DoGc(t, near) => StartedCloses(s, t, near, false, None); GcIs(s, t, near);
    case DoSubmitClose(c) => SubmittedCloses(s, c);
    case DoStartUnshare(t) => SentCloses(s, t);
    case DoRunClose(t) => RunCloses(s, t);
    case DoHangClose(t, i) => HungCloses(s, t, i);
    case DoRunUnshare(t) => SameCloses(s, RunUnshare(s, t)) by { CopiedCloses(s, t); }
    case DoHang(t) => SameCloses(s, Hang(s, t)) by { CopiedCloses(s, t); }
    case _ => SameCloses(s, Apply(s, step)) by { OtherCloses(s, step); }
  }

  lemma {:induction false} SameCloses(s: State, s': State)
    requires s'.closes == s.closes
    ensures ClosesChange(s, s', None, false)
  {
  }

  lemma {:induction false} StartedCloses(s: State, t: Id, near: Id, queued: bool, holder: Option<Id>)
    requires FreshOk(s) && t in s.tasks
    ensures ClosesChange(s, Initiate(s, t, near, queued, holder),
                Some(Close(t, near, s.tasks[t].py, s.tasks[t].py, queued, holder)), false)
  {
    hide Push;
  }

  lemma {:induction false} GcIs(s: State, t: Id, near: Id)
    requires CanGc(s, t, near)
    ensures Gc(s, t, near) == Initiate(s, t, near, false, None)
  {
    hide Initiate;
  }

  lemma {:induction false} InvalidatedCloses(s: State, h: Id)
    requires FreshOk(s) && Current(s, h)
    ensures ClosesChange(s, Invalidate(s, h), Started(s, DoInvalidate(h)), false)
  {
    hide ClosesChange, Initiate;
    var r, t, near := Untrack(s, h), s.handles[h].task, s.handles[h].near;
    if LastHandle(s, h) {
      StartedCloses(r, t, near, true, Some(h));
      assert r.closes == s.closes && r.next == s.next && r.tasks == s.tasks;
      AsIfClosedFrom(r, s, Initiate(r, t, near, true, Some(h)),
          Some(Close(t, near, s.tasks[t].py, s.tasks[t].py, true, Some(h))));
    } else {
      SameCloses(s, r);
    }
  }

  lemma {:induction false} AsIfClosedFrom(r: State, s: State, s': State, started: Option<Close>)
    requires ClosesChange(r, s', started, false) && r.closes == s.closes && r.next == s.next
    ensures ClosesChange(s, s', started, false)
  {
  }

  lemma {:induction false} SubmittedCloses(s: State, c: Id)
    requires CanSubmitClose(s, c)
    ensures ClosesChange(s, SubmitClose(s, c), None, false)
  {
    hide Push;
  }

  lemma {:induction false} SentCloses(s: State, t: Id)
    requires CanStartUnshare(s, t)
    ensures ClosesChange(s, StartUnshare(s, t), None, false)
  {
    hide FreshTable, Claims, CopyOf, Leak;
  }

  lemma {:induction false} RunCloses(s: State, t: Id)
    requires CanRunClose(s, t)
    ensures ClosesChange(s, RunClose(s, t), None, true)
  {
    hide Ran;
  }

  lemma {:induction false} HungCloses(s: State, t: Id, i: nat)
    requires CanHangClose(s, t, i)
    ensures ClosesChange(s, HangClose(s, t, i), None, true)
  {
    hide Take;
  }

  lemma {:induction false} CopiedCloses(s: State, t: Id)
    requires t in s.tasks
    ensures CanRunUnshare(s, t) ==> RunUnshare(s, t).closes == s.closes
    ensures Hang(s, t).closes == s.closes
  {
    hide CopyOf, Leak, Ran;
  }

  predicate SameClose(d: Close, e: Close) {
    e.task == d.task && e.near == d.near && e.origin == d.origin && e.holder == d.holder && (d.queued ==> e.queued)
  }

  lemma {:induction false} OtherCloses(s: State, step: Step)
    requires Can(s, step) && !step.DoInvalidate? && !step.DoSubmitClose? && !step.DoGc? && !step.DoHang?
    requires !step.DoStartUnshare? && !step.DoRunClose? && !step.DoHangClose? && !step.DoRunUnshare?
    ensures Apply(s, step).closes == s.closes
  {
    hide FreshTable, Claims, CopyOf, Leak, Take, Push, Ran, FdHandles, RunUnshare, Invalidate, StartUnshare, Hang,
        Gc, RunClose, HangClose, SubmitClose;
  }

  /** Only unshare_files moves a task to another table, and only its own task. */
  lemma {:induction false} TablesAfter(s: State, step: Step, t: Id)
    requires FreshOk(s) && Can(s, step) && t in s.tasks
    ensures var s' := Apply(s, step);
            t in s'.tasks && s'.tasks[t].py == if step == DoStartUnshare(t) then s.next else s.tasks[t].py
  {
    hide SubmitOpen, RunOpen, RunClose, RunUnshare, OnOpened, OnClosed, OnUnshared, Share, Untrack, Invalidate, Collect,
        Gc, SubmitClose, StartUnshare, Hang, HangClose, CloneShared, CloneCopied, FreshOk;
    match step
    case DoRunUnshare(u) => UnshareTables(s, u, t);
    case DoStartUnshare(u) => UnshareTables(s, u, t);
    case DoHang(u) => UnshareTables(s, u, t);
    case DoOnOpened(u) => OpenedTables(s, u, t);
    case DoInvalidate(h) => CloseTables(s, step, t);
    case DoGc(u, near) => CloseTables(s, step, t);
    case DoSubmitClose(c) => CloseTables(s, step, t);
    case _ => OtherTables(s, step, t);
  }

  lemma {:induction false} UnshareTables(s: State, u: Id, t: Id)
    requires FreshOk(s) && u in s.tasks && t in s.tasks
    ensures CanRunUnshare(s, u) ==> t in RunUnshare(s, u).tasks && RunUnshare(s, u).tasks[t].py == s.tasks[t].py
    ensures CanStartUnshare(s, u) ==>
              && t in StartUnshare(s, u).tasks
              && StartUnshare(s, u).tasks[t].py == if t == u then s.next else s.tasks[t].py
    ensures t in Hang(s, u).tasks && Hang(s, u).tasks[t].py == s.tasks[t].py
  {
    hide FreshTable, Claims, CopyOf, Leak, FdHandles;
  }

  lemma {:induction false} OpenedTables(s: State, u: Id, t: Id)
    requires CanSettle(s, u) && t in s.tasks
    ensures t in OnOpened(s, u).tasks && OnOpened(s, u).tasks[t].py == s.tasks[t].py
  {
    hide AlreadyKnown;
  }

  lemma {:induction false} CloseTables(s: State, step: Step, t: Id)
    requires Can(s, step) && t in s.tasks && (step.DoInvalidate? || step.DoGc? || step.DoSubmitClose?)
    ensures t in Apply(s, step).tasks && Apply(s, step).tasks[t].py == s.tasks[t].py
  {
    hide LastHandle;
  }

  lemma {:induction false} OtherTables(s: State, step: Step, t: Id)
    requires FreshOk(s) && Can(s, step) && t in s.tasks && !step.DoRunUnshare? && !step.DoStartUnshare?
    requires !step.DoHang? && !step.DoOnOpened? && !step.DoInvalidate? && !step.DoGc? && !step.DoSubmitClose?
    ensures t in Apply(s, step).tasks && Apply(s, step).tasks[t].py == s.tasks[t].py
  {
    hide FreshTable, Claims, CopyOf, Leak, FdHandles, RunUnshare, StartUnshare, Hang, OnOpened, Invalidate, Gc,
        SubmitClose;
  }

  /** A child with a copied table can inherit every handle of its parent's table, and what the parent
      could inherit. */
  lemma {:induction false} ChildInherits(s: State, t: Id, h: Id)
    requires CanClone(s, t) && h in s.handles && s.handles[h].valid
    requires Legacy(s.tasks[t].py, h) in s.legacy
             || (Cell(s.tasks[t].py, s.handles[h].near) in s.tracked
                 && h in s.tracked[Cell(s.tasks[t].py, s.handles[h].near)])
    ensures CanInherit(CloneCopied(s, t), h, s.next)
  {
    hide CopyOf, Leak;
    if Legacy(s.tasks[t].py, h) in s.legacy {
      assert Legacy(s.tasks[t].py, h).table == s.tasks[t].py;
    } else {
      var k := Cell(s.tasks[t].py, s.handles[h].near);
      assert k.table == s.tasks[t].py && h in s.tracked[k];
    }
  }

  /** In every guarded run, a handle keeps its task, number and file for life, is never valid again, and
      its identity is never another handle's. */
  lemma {:induction false} HandleIsForLife(states: seq<State>, steps: seq<Step>, i: nat, j: nat, h: Id)
    requires IsRun(states, steps) && Init(states[0]) && IsGuarded(states, steps) && i <= j < |states|
    requires h in states[i].handles
    ensures h < states[j].next
    ensures h in states[j].handles ==>
              var was, now := states[i].handles[h], states[j].handles[h];
              now.task == was.task && now.near == was.near && now.file == was.file && (now.valid ==> was.valid)
    decreases j
  {
    hide Can, Apply, Guarded, Made;
    HandlesStaySafe(states, steps, if i == j then j else j - 1);
    IdsAreNew(states[if i == j then j else j - 1]);
    hide Sound;
    if i < j {
      HandleIsForLife(states, steps, i, j - 1, h);
      var s, step := states[j - 1], steps[j - 1];
      assert Can(s, step) && states[j] == Apply(s, step);
      HandlesAfter(s, step);
      NextGrows(s, step);
    }
  }

  lemma {:induction false} IdsAreNew(s: State)
    requires Sound(s)
    ensures FreshOk(s)
  {
  }

  lemma {:induction false} NextGrows(s: State, step: Step)
    requires Can(s, step)
    ensures s.next <= Apply(s, step).next
  {
    hide FreshTable, Claims, CopyOf, Leak, Take, Push, Ran, FdHandles;
    match step
    case DoRunUnshare(t) => SentHandles(s, t);
    case DoStartUnshare(t) => SentHandles(s, t);
    case DoHang(t) => SentHandles(s, t);
    case _ => OtherNext(s, step);
  }

  lemma {:induction false} OtherNext(s: State, step: Step)
    requires Can(s, step) && !step.DoRunUnshare? && !step.DoStartUnshare? && !step.DoHang?
    ensures s.next <= Apply(s, step).next
  {
    hide FreshTable, Claims, CopyOf, Leak, Take, Push, Ran, FdHandles, RunUnshare, StartUnshare, Hang;
  }
}
