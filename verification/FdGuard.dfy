/** The guard on starting a close, stated on what the program itself tracks. */
module FdGuard {
  import opened Prelude
  import opened FdTables
  import opened FdInvariant
  import opened FdSteps
  import opened FdSafety

  /** A number claimed in a table that does not exist yet is tracked there or about to be closed there. */
  ghost predicate ClaimOk(s: State, k: Cell)
    requires k in s.owner
  {
    && (s.owner[k].ClosedBy? ==>
         s.owner[k].c < s.next && (s.owner[k].c in s.closes ==> s.closes[s.owner[k].c].near == k.near))
    && (k.table in s.reserved ==>
          k in s.tracked || (s.owner[k].ClosedBy? && s.owner[k].c in s.closes
              && s.closes[s.owner[k].c].dest == k.table))
  }

  ghost predicate ReservedOk(s: State) {
    forall k :: k in s.owner ==> ClaimOk(s, k)
  }

  /** No unshare out of this table that has still to run has the number in its new table, with
      handles, without, or in a close that has not run. */
  predicate NotBeingCopied(s: State, table: Id, near: Id) {
    forall f :: f in s.reserved && s.reserved[f] == table ==>
      Cell(f, near) !in s.tracked && forall c :: c in s.closes ==> s.closes[c].dest != f || s.closes[c].near != near
  }

  lemma {:induction false} GuardIsCloseSafe(s: State, table: Id, near: Id)
    requires TablesOk(s) && ClosesOk(s) && ReservedOk(s)
    ensures NotBeingCopied(s, table, near) <==> CloseSafe(s, table, near)
  {
    forall f | f in s.reserved && s.reserved[f] == table
      ensures Cell(f, near) in s.owner <==> Cell(f, near) in s.tracked || exists c ::
                c in s.closes && s.closes[c].dest == f && s.closes[c].near == near
    {
      if Cell(f, near) in s.owner { assert ClaimOk(s, Cell(f, near)); }
      forall c | c in s.closes && s.closes[c].dest == f && s.closes[c].near == near ensures Cell(f, near) in s.owner {
        assert CloseOk(s, c, s.closes[c]);
      }
    }
  }

  lemma {:induction false} ReservedStep(s: State, step: Step)
    requires Inv(s) && ReservedOk(s) && Can(s, step)
    ensures ReservedOk(Apply(s, step))
  {
    hide TablesOk, TasksOk, PipesOk, ClosesOk, ArrivalsOk, TrackedOk, HandlesOk, LegacyOk, FreshOk;
    hide RunOpen, RunClose, RunUnshare, Initiate, StartUnshare, HangClose, CloneCopied, Collect, OnUnshared, Hang;
    match step
    case DoRunClose(t) => CloseIsReal(s, t); RunCloseClaims(s, t);
    case DoRunOpen(t, near) => RunOpenClaims(s, t, near);
    case DoRunUnshare(t) => RunUnshareClaims(s, t);
    case DoOnOpened(t) => OnOpenedClaims(s, t);
    case DoOnUnshared(t) => OnUnsharedClaims(s, t);
    case DoInvalidate(h) => InvalidateClaims(s, h);
    case DoGc(t, near) => InitiateClaims(s, t, near, false, None);
    case DoStartUnshare(t) => StartUnshareClaims(s, t);
    case DoHangClose(t, i) => CloseAt(s, s.tasks[t].pipe[i].c); HangCloseClaims(s, t, i);
    case DoCloneCopied(t) => CloneCopiedClaims(s, t);
    case DoCollect(h) => CollectClaims(s, h);
    case DoHang(t) => HangClaims(s, t);
    case _ => OtherClaims(s, step);
  }

  lemma {:induction false} OtherClaims(s: State, step: Step)
    requires ReservedOk(s) && Can(s, step)
    requires || step.DoSubmitOpen? || step.DoOnClosed? || step.DoForTask? || step.DoInherit? || step.DoRelease?
             || step.DoSubmitClose? || step.DoCloneShared?
    ensures ReservedOk(Apply(s, step))
  {
    var s' := Apply(s, step);
    forall k | k in s'.owner ensures ClaimOk(s', k) {
      if k in s.owner { assert ClaimOk(s, k); }
    }
  }

  lemma {:induction false} CloseIsReal(s: State, t: Id)
    requires Inv(s) && CanRunClose(s, t)
    ensures s.closes[NextCall(s, t).c].dest !in s.reserved
  {
    assert PipeOk(s, t, s.tasks[t]);
    assert EntryOk(s, t, s.tasks[t], s.tasks[t].done);
    assert TaskOk(s, s.tasks[t]);
  }

  lemma {:induction false} RunCloseClaims(s: State, t: Id)
    requires ReservedOk(s) && CanRunClose(s, t) && s.closes[NextCall(s, t).c].dest !in s.reserved
    ensures ReservedOk(RunClose(s, t))
  {
    var s' := RunClose(s, t);
    forall k | k in s'.owner ensures ClaimOk(s', k) {
      assert ClaimOk(s, k);
    }
  }

  lemma {:induction false} RunOpenClaims(s: State, t: Id, near: Id)
    requires TasksOk(s) && TablesOk(s) && ReservedOk(s) && CanRunOpen(s, t, near)
    ensures ReservedOk(RunOpen(s, t, near))
  {
    var s' := RunOpen(s, t, near);
    assert TaskOk(s, s.tasks[t]);
    forall k | k in s'.owner ensures ClaimOk(s', k) {
      if k in s.owner { assert ClaimOk(s, k); }
    }
  }

  lemma {:induction false} RunUnshareClaims(s: State, t: Id)
    requires ReservedOk(s) && CanRunUnshare(s, t)
    ensures ReservedOk(RunUnshare(s, t))
  {
    var s' := s.(tasks := s.tasks[t := Ran(s.tasks[t], Unshare)]);
    forall k | k in s'.owner ensures ClaimOk(s', k) {
      assert ClaimOk(s, k);
    }
    hide ReservedOk, Copied;
    CopiedClaims(s', s.tasks[t].phase.was, s.tasks[t].py);
  }

  lemma {:induction false} CopiedClaims(s: State, from: Id, to: Id)
    requires ReservedOk(s)
    ensures ReservedOk(Copied(s, from, to))
  {
    hide CopyOf;
    var s' := Copied(s, from, to);
    forall k | k in s'.owner ensures ClaimOk(s', k) {
      if k in s.owner { assert ClaimOk(s, k); }
    }
  }

  lemma {:induction false} SettleClaims(s: State, t: Id)
    requires TablesOk(s) && ArrivalsOk(s) && ReservedOk(s) && CanSettle(s, t)
    ensures ReservedOk(Settle(s, t))
  {
    var s' := Settle(s, t);
    forall k | k in s'.owner ensures ClaimOk(s', k) {
      if k in s.owner { assert ClaimOk(s, k); }
    }
  }

  lemma {:induction false} OnOpenedClaims(s: State, t: Id)
    requires TablesOk(s) && ArrivalsOk(s) && ReservedOk(s) && CanSettle(s, t)
    ensures ReservedOk(OnOpened(s, t))
  {
    SettleClaims(s, t);
    hide ReservedOk;
    var s1, s' := Settle(s, t), OnOpened(s, t);
    if s' != s1 {
      MakeClaims(s1, t, s.arrivals[s.tasks[t].pipe[0].o].cell.near, s.arrivals[s.tasks[t].pipe[0].o].file);
    }
  }

  lemma {:induction false} MakeClaims(s: State, t: Id, near: Id, file: Id)
    requires ReservedOk(s) && t in s.tasks
    ensures ReservedOk(MakeHandle(s, t, near, file))
  {
    var s' := MakeHandle(s, t, near, file);
    forall k | k in s'.owner ensures ClaimOk(s', k) {
      if k in s.owner { assert ClaimOk(s, k); }
    }
  }

  lemma {:induction false} OnUnsharedClaims(s: State, t: Id)
    requires ReservedOk(s) && CanOnUnshared(s, t)
    ensures ReservedOk(OnUnshared(s, t))
  {
    var s' := OnUnshared(s, t);
    forall k | k in s'.owner ensures ClaimOk(s', k) {
      assert ClaimOk(s, k);
    }
  }

  lemma {:induction false} CollectClaims(s: State, h: Id)
    requires ReservedOk(s)
    ensures ReservedOk(Collect(s, h))
  {
    var s' := Collect(s, h);
    forall k | k in s'.owner ensures ClaimOk(s', k) {
      assert ClaimOk(s, k);
    }
  }

  lemma {:induction false} InitiateClaims(s: State, t: Id, near: Id, queued: bool, holder: Option<Id>)
    requires ReservedOk(s) && FreshOk(s) && t in s.tasks
    ensures ReservedOk(Initiate(s, t, near, queued, holder))
  {
    var s' := Initiate(s, t, near, queued, holder);
    forall k | k in s'.owner ensures ClaimOk(s', k) {
      if k in s.owner { assert ClaimOk(s, k); }
    }
  }

  lemma {:induction false} InvalidateClaims(s: State, h: Id)
    requires ReservedOk(s) && FreshOk(s) && Current(s, h)
    ensures ReservedOk(Invalidate(s, h))
  {
    var s1 := Untrack(s, h);
    forall k | k in s1.owner ensures ClaimOk(s1, k) {
      assert ClaimOk(s, k);
    }
    if LastHandle(s, h) {
      InitiateClaims(s1, s.handles[h].task, s.handles[h].near, true, Some(h));
    }
  }

  lemma {:induction false} NewTable(s: State, t: Id)
    requires TablesOk(s) && TasksOk(s) && FreshOk(s) && CanStartUnshare(s, t)
    ensures s.tasks[t].py !in s.reserved && forall k :: k in s.owner ==> k.table != s.next
  {
    assert TaskOk(s, s.tasks[t]);
  }

  lemma {:induction false} SendUnshareClaims(s: State, t: Id)
    requires Inv(s) && ReservedOk(s) && CanStartUnshare(s, t)
    ensures ReservedOk(SendUnshare(s, t))
  {
    hide TablesOk, TasksOk, PipesOk, ArrivalsOk, TrackedOk, HandlesOk, LegacyOk, FreshOk, ClosesOk, FreshTable,
        Claims, ClaimOk;
    NewTable(s, t);
    WaitingIsHere(s, t);
    var s' := SendUnshare(s, t);
    forall k | k in s'.owner ensures ClaimOk(s', k) {
      if k in s.owner {
        ClaimStays(s, t, k);
      } else {
        ClaimIsMoved(s, t, k);
      }
    }
  }

  lemma {:induction false} WaitingIsHere(s: State, t: Id)
    requires ClosesOk(s) && t in s.tasks
    ensures forall c :: Waiting(s, t, c) ==> s.closes[c].dest == s.tasks[t].py
  {
    forall c | Waiting(s, t, c) ensures s.closes[c].dest == s.tasks[t].py {
      assert CloseOk(s, c, s.closes[c]);
    }
  }

  lemma {:induction false} ClaimStays(s: State, t: Id, k: Cell)
    requires k in s.owner && ClaimOk(s, k) && CanStartUnshare(s, t) && k.table != s.next && s.tasks[t].py !in s.reserved
    requires forall c :: Waiting(s, t, c) ==> s.closes[c].dest == s.tasks[t].py
    ensures k in SendUnshare(s, t).owner && ClaimOk(SendUnshare(s, t), k)
  {
    hide FreshTable, Claims;
  }

  lemma {:induction false} ClaimIsMoved(s: State, t: Id, k: Cell)
    requires ClosesOk(s) && ReservedOk(s) && CanStartUnshare(s, t) && k.table == s.next && k !in s.owner
             && k in SendUnshare(s, t).owner
    ensures ClaimOk(SendUnshare(s, t), k)
  {
    hide FreshTable, Claims;
    var s', was := SendUnshare(s, t), Cell(s.tasks[t].py, k.near);
    assert k in Claims(s, t, s.next) && Claimed(s, t, was) && s'.owner[k] == s.owner[was];
    if s.owner[was].Tracked? {
      var h :| h in FdHandles(s, t) && s.handles[h].near == k.near;
      assert Cell(s.next, s.handles[h].near) in FreshTable(s, t, s.next);
    } else {
      var c := s.owner[was].c;
      assert CloseOk(s, c, s.closes[c]) && ClaimOk(s, was);
    }
  }

  lemma {:induction false} StartUnshareClaims(s: State, t: Id)
    requires Inv(s) && ReservedOk(s) && CanStartUnshare(s, t)
    ensures ReservedOk(StartUnshare(s, t))
  {
    SendUnshareClaims(s, t);
    hide Inv, ReservedOk, SendUnshare, Copied;
    if s.tasks[t].dead { CopiedClaims(SendUnshare(s, t), s.tasks[t].py, SendUnshare(s, t).tasks[t].py); }
  }

  lemma {:induction false} HangClaims(s: State, t: Id)
    requires ReservedOk(s) && t in s.tasks
    ensures ReservedOk(Hang(s, t))
  {
    var s' := MarkDead(s, t);
    forall k | k in s'.owner ensures ClaimOk(s', k) {
      assert ClaimOk(s, k);
    }
    hide ReservedOk, Copied;
    if CanAbandon(s', t) { CopiedClaims(s', s'.tasks[t].phase.was, s'.tasks[t].py); }
  }

  lemma {:induction false} CloseAt(s: State, c: Id)
    requires ClosesOk(s) && c in s.closes
    ensures CloseOk(s, c, s.closes[c])
  {
  }

  lemma {:induction false} HangCloseClaims(s: State, t: Id, i: nat)
    requires ReservedOk(s) && CanHangClose(s, t, i) && CloseOk(s, s.tasks[t].pipe[i].c, s.closes[s.tasks[t].pipe[i].c])
    ensures ReservedOk(HangClose(s, t, i))
  {
    var s' := HangClose(s, t, i);
    forall k | k in s'.owner ensures ClaimOk(s', k) {
      if k in s.owner { assert ClaimOk(s, k); }
    }
  }

  lemma {:induction false} CloneCopiedClaims(s: State, t: Id)
    requires FreshOk(s) && ReservedOk(s) && CanStartUnshare(s, t)
    ensures ReservedOk(CloneCopied(s, t))
  {
    var s' := CloneCopied(s, t);
    forall k | k in s'.owner ensures ClaimOk(s', k) {
      if k in s.owner { assert ClaimOk(s, k); }
    }
  }
}
