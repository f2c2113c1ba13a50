/** What the invariant means for descriptor handles, and that every step keeps it. */
module FdSafety {
  import opened Prelude
  import opened FdTables
  import opened FdInvariant
  import opened FdSteps

  /** Every valid handle's number is open in its task's kernel table, and names its file. */
  ghost predicate Safe(s: State) {
    forall h :: h in s.handles && s.handles[h].valid ==>
      && s.handles[h].task in s.tasks
      && var k := Cell(KernelOf(s.tasks[s.handles[h].task]), s.handles[h].near);
         k in s.kernel && s.kernel[k] == s.handles[h].file
  }

  lemma {:induction false} InvIsSafe(s: State)
    requires TablesOk(s) && TasksOk(s) && TrackedOk(s) && HandlesOk(s)
    ensures Safe(s)
  {
    forall h | h in s.handles && s.handles[h].valid
      ensures s.handles[h].task in s.tasks
      ensures var k := Cell(KernelOf(s.tasks[s.handles[h].task]), s.handles[h].near);
                k in s.kernel && s.kernel[k] == s.handles[h].file
    {
      assert HandleOk(s, h);
      var t := s.tasks[s.handles[h].task];
      assert TaskOk(s, t);
      assert Holds(s, KernelOf(t), h);
      assert Names(s, Cell(KernelOf(t), s.handles[h].near), s.handles[h].file);
    }
  }

  // ---------------------------------------------------------------- what no step runs into

  /** make_fd_handle never finds the number of a finished open already tracked. */
  lemma {:induction false} OpenedIsNeverKnown(s: State, t: Id)
    requires Inv(s) && CanSettle(s, t) && s.tasks[t].phase.Stable?
    ensures !AlreadyKnown(s, t)
  {
    FirstResult(s, t);
  }

  /** A close always finds its number open, untracked, and not just opened by somebody else. */
  lemma {:induction false} CloseHitsItsOwn(s: State, t: Id)
    requires Inv(s) && CanRunClose(s, t)
    ensures var k := Cell(KernelOf(s.tasks[t]), s.closes[NextCall(s, t).c].near);
            && k in s.kernel && k in s.owner && s.owner[k] == ClosedBy(NextCall(s, t).c) && k !in s.tracked
            && forall o :: o in s.arrivals ==> s.arrivals[o].cell != k
  {
    CloseAtHand(s, t);
  }

  /** Two closes in progress never claim the same number of the same table. */
  lemma {:induction false} ClosedOnce(s: State, c: Id, d: Id)
    requires Inv(s) && c in s.closes && d in s.closes && s.closes[c].near == s.closes[d].near
    requires s.closes[c].dest == s.closes[d].dest || s.closes[c].origin == s.closes[d].origin
    ensures c == d
  {
    assert CloseOk(s, c, s.closes[c]) && CloseOk(s, d, s.closes[d]);
  }

  /** Putting a number back after a hangup never finds it reopened. */
  lemma {:induction false} PutBackIsUnknown(s: State, t: Id, i: nat)
    requires Inv(s) && CanHangClose(s, t, i)
    ensures var d := s.closes[s.tasks[t].pipe[i].c]; Cell(d.origin, d.near) !in s.tracked
  {
    assert CloseOk(s, s.tasks[t].pipe[i].c, s.closes[s.tasks[t].pipe[i].c]);
  }

  /** Dropping a valid handle, and the end of an unshare, always find the handle where they look. */
  lemma {:induction false} HandleIsWhereExpected(s: State, h: Id)
    requires Inv(s) && h in s.handles && s.handles[h].valid
    ensures Current(s, h) && h in s.tracked[CellOf(s, h)]
    ensures var p := s.tasks[s.handles[h].task].phase;
            p.Unsharing? ==>
                 Cell(p.was, s.handles[h].near) in s.tracked && h in s.tracked[Cell(p.was, s.handles[h].near)]
  {
    assert HandleOk(s, h);
  }

  // ---------------------------------------------------------------- steps

  datatype Step =
    | DoSubmitOpen(t: Id) | DoRunOpen(t: Id, near: Id) | DoRunClose(t: Id) | DoRunUnshare(t: Id)
    | DoOnOpened(t: Id) | DoOnClosed(t: Id) | DoOnUnshared(t: Id)
    | DoForTask(h: Id, t: Id) | DoInherit(h: Id, t: Id) | DoRelease(h: Id) | DoInvalidate(h: Id) | DoCollect(h: Id)
    | DoGc(t: Id, near: Id) | DoSubmitClose(c: Id) | DoStartUnshare(t: Id)
    | DoHang(t: Id) | DoHangClose(t: Id, i: nat) | DoCloneShared(t: Id) | DoCloneCopied(t: Id)

  /** When the program or the kernel can take the step. */
  predicate Can(s: State, step: Step) {
    match step
    case DoSubmitOpen(t) => t in s.tasks
    case DoRunOpen(t, near) => CanRunOpen(s, t, near)
    case DoRunClose(t) => CanRunClose(s, t)
    case DoRunUnshare(t) => CanRunUnshare(s, t)
    case DoOnOpened(t) => CanSettle(s, t)
    case DoOnClosed(t) => CanOnClosed(s, t)
    case DoOnUnshared(t) => CanOnUnshared(s, t)
    case DoForTask(h, t) => CanShare(s, h, t)
    case DoInherit(h, t) => CanInherit(s, h, t)
    case DoRelease(h) => Current(s, h)
    case DoInvalidate(h) => Current(s, h)
    case DoCollect(h) => CanCollect(s, h)
    case DoGc(t, near) => CanGc(s, t, near)
    case DoSubmitClose(c) => CanSubmitClose(s, c)
    case DoStartUnshare(t) => CanStartUnshare(s, t)
    case DoHang(t) => t in s.tasks
    case DoHangClose(t, i) => CanHangClose(s, t, i)
    case DoCloneShared(t) => CanClone(s, t)
    case DoCloneCopied(t) => CanClone(s, t)
  }

  function Apply(s: State, step: Step): State
    requires Can(s, step)
  {
    match step
    case DoSubmitOpen(t) => SubmitOpen(s, t)
    case DoRunOpen(t, near) => RunOpen(s, t, near)
    case DoRunClose(t) => RunClose(s, t)
    case DoRunUnshare(t) => RunUnshare(s, t)
    case DoOnOpened(t) => OnOpened(s, t)
    case DoOnClosed(t) => OnClosed(s, t)
    case DoOnUnshared(t) => OnUnshared(s, t)
    case DoForTask(h, t) => Share(s, h, t)
    case DoInherit(h, t) => Share(s, h, t)
    case DoRelease(h) => Untrack(s, h)
    case DoInvalidate(h) => Invalidate(s, h)
    case DoCollect(h) => Collect(s, h)
    case DoGc(t, near) => Gc(s, t, near)
    case DoSubmitClose(c) => SubmitClose(s, c)
    case DoStartUnshare(t) => StartUnshare(s, t)
    case DoHang(t) => Hang(s, t)
    case DoHangClose(t, i) => HangClose(s, t, i)
    case DoCloneShared(t) => CloneShared(s, t)
    case DoCloneCopied(t) => CloneCopied(s, t)
  }

  /** A close of this number through this task may start: it can never run, or no unshare out of
      the table that has still to run has the number. */
  ghost predicate MayClose(s: State, t: Id, near: Id)
    requires t in s.tasks
  {
    s.tasks[t].dead || CloseSafe(s, s.tasks[t].py, near)
  }

  /** The condition on the two steps that start a close. */
  ghost predicate Careful(s: State, step: Step)
    requires Can(s, step)
  {
    match step
    case DoGc(t, near) => MayClose(s, t, near)
    case DoInvalidate(h) => LastHandle(s, h) ==> MayClose(s, s.handles[h].task, s.handles[h].near)
    case _ => true
  }

  lemma {:induction false} OnOpenedKeeps(s: State, t: Id)
    requires Inv(s) && CanSettle(s, t)
    ensures Inv(OnOpened(s, t))
  {
    SettleKeeps(s, t);
    var s', a := Settle(s, t), s.arrivals[s.tasks[t].pipe[0].o];
    if s.tasks[t].phase.Stable? && !AlreadyKnown(s, t) {
      FirstResult(s, t);
      assert CanMake(s', t, a.cell.near, a.file) by {
        assert a.cell == Cell(s'.tasks[t].py, a.cell.near);
        assert TaskOk(s, s.tasks[t]);
      }
      hide Inv, CanMake, Settle;
      MakeHandleKeeps(s', t, a.cell.near, a.file);
    }
  }

  lemma {:induction false} ShareKeeps(s: State, h: Id, t: Id)
    requires Inv(s) && (CanShare(s, h, t) || CanInherit(s, h, t))
    ensures Inv(Share(s, h, t))
  {
    assert TaskOk(s, s.tasks[t]);
    assert CanMake(s, t, s.handles[h].near, s.handles[h].file) by {
      if CanShare(s, h, t) {
        assert HandleOk(s, h);
        assert Names(s, Cell(s.tasks[t].py, s.handles[h].near), s.handles[h].file);
      } else {
        assert Legacy(s.tasks[t].py, h) in s.legacy;
      }
    }
    hide Inv, CanMake;
    MakeHandleKeeps(s, t, s.handles[h].near, s.handles[h].file);
  }

  lemma {:induction false} InvalidateKeeps(s: State, h: Id)
    requires Inv(s) && Current(s, h)
    requires LastHandle(s, h) ==> MayClose(s, s.handles[h].task, s.handles[h].near)
    ensures Inv(Invalidate(s, h))
  {
    UntrackKeeps(s, h);
    hide Inv;
    if LastHandle(s, h) {
      InitiateKeeps(Untrack(s, h), s.handles[h].task, s.handles[h].near, true, Some(h));
    }
  }

  lemma {:induction false} StepKeeps(s: State, step: Step)
    requires Inv(s) && Can(s, step) && Careful(s, step)
    ensures Inv(Apply(s, step))
  {
    hide Inv;
    match step
    case DoSubmitOpen(t) => SubmitOpenKeeps(s, t);
    case DoRunOpen(t, near) => RunOpenKeeps(s, t, near);
    case DoRunClose(t) => RunCloseKeeps(s, t);
    case DoRunUnshare(t) => RunUnshareKeeps(s, t);
    case DoOnOpened(t) => OnOpenedKeeps(s, t);
    case DoOnClosed(t) => OnClosedKeeps(s, t);
    case DoOnUnshared(t) => OnUnsharedKeeps(s, t);
    case DoForTask(h, t) => ShareKeeps(s, h, t);
    case DoInherit(h, t) => ShareKeeps(s, h, t);
    case DoRelease(h) => UntrackKeeps(s, h);
    case DoInvalidate(h) => InvalidateKeeps(s, h);
    case DoCollect(h) => CollectKeeps(s, h);
    case DoGc(t, near) => InitiateKeeps(s, t, near, false, None);
    case DoSubmitClose(c) => SubmitCloseKeeps(s, c);
    case DoStartUnshare(t) => StartUnshareKeeps(s, t);
    case DoHang(t) => HangKeeps(s, t);
    case DoHangClose(t, i) => HangCloseKeeps(s, t, i);
    case DoCloneShared(t) => CloneSharedKeeps(s, t);
    case DoCloneCopied(t) => CloneCopiedKeeps(s, t);
  }
}
