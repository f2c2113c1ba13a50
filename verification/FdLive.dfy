/** More of what every step keeps: who an unshare that has still to run belongs to, whose handles its
    new table has, and where submitted closes are. */
module FdLive {
  import opened Prelude
  import opened FdTables
  import opened FdInvariant
  import opened FdSteps
  import opened FdSafety

  /** Task `u` works, and its unshare into table `f` has still to run. */
  predicate Unsharer(s: State, u: Id, f: Id) {
    && u in s.tasks && s.tasks[u].py == f && s.tasks[u].phase.Unsharing? && !s.tasks[u].dead
    && s.tasks[u].done <= s.tasks[u].phase.pos
  }

  ghost predicate LiveOk(s: State) {
    forall f :: f in s.reserved ==> exists u :: Unsharer(s, u, f)
  }

  /** Handles in a table still to be made are valid, and of its task. */
  ghost predicate SetsOk(s: State) {
    forall k, h :: k in s.tracked && k.table in s.reserved && h in s.tracked[k] ==>
      h in s.handles && s.handles[h].valid && s.handles[h].task in s.tasks && s.tasks[s.handles[h].task].py == k.table
  }

  ghost predicate QueuedAt(s: State, c: Id)
    requires c in s.closes
  {
    s.closes[c].task in s.tasks && Closing(c) in s.tasks[s.closes[c].task].pipe
  }

  ghost predicate QueuedOk(s: State) {
    forall c :: c in s.closes && s.closes[c].queued ==> QueuedAt(s, c)
  }

  // ---------------------------------------------------------------- unshares still to run

  /** Whoever is to run an unshare still is, unless its table is no longer reserved. */
  ghost predicate KeepsUnsharers(s: State, s': State) {
    && (forall f :: f in s'.reserved ==> f in s.reserved)
    && forall u, f :: Unsharer(s, u, f) && f in s'.reserved ==> Unsharer(s', u, f)
  }

  lemma {:induction false} LiveFrame(s: State, s': State)
    requires LiveOk(s) && KeepsUnsharers(s, s')
    ensures LiveOk(s')
  {
    forall f | f in s'.reserved ensures exists u :: Unsharer(s', u, f) {
      var u :| Unsharer(s, u, f);
    }
  }

  lemma {:induction false} RunLive(s: State, step: Step)
    requires LiveOk(s) && PipesOk(s) && Can(s, step) && (step.DoRunOpen? || step.DoRunClose? || step.DoRunUnshare?)
    ensures LiveOk(Apply(s, step))
  {
    var t := step.t;
    assert PipeOk(s, t, s.tasks[t]) && EntryOk(s, t, s.tasks[t], s.tasks[t].done);
    hide PipesOk, LiveOk, CopyOf;
    LiveFrame(s, Apply(s, step));
  }

  lemma {:induction false} TakeLive(s: State, step: Step)
    requires LiveOk(s) && PipesOk(s) && Can(s, step) && (step.DoOnOpened? || step.DoOnClosed? || step.DoOnUnshared?)
    ensures LiveOk(Apply(s, step))
  {
    hide PipesOk, LiveOk, FdHandles, Take, Settle, OnOpened, OnClosed, OnUnshared;
    if step.DoOnOpened? { SettledTasks(s, step.t); } else { TakenTasks(s, step); }
    TakenLive(s, Apply(s, step), step.t);
  }

  lemma {:induction false} SettledTasks(s: State, t: Id)
    requires CanSettle(s, t)
    ensures OnOpened(s, t).tasks == s.tasks[t := Take(s.tasks[t], 0)] && OnOpened(s, t).reserved == s.reserved
  {
    hide Take, AlreadyKnown;
  }

  lemma {:induction false} TakenTasks(s: State, step: Step)
    requires Can(s, step) && (step.DoOnClosed? || step.DoOnUnshared?)
    ensures Apply(s, step).tasks == s.tasks[step.t := Take(s.tasks[step.t], 0)]
    ensures Apply(s, step).reserved == s.reserved
  {
    hide Take, FdHandles;
  }

  lemma {:induction false} TakenLive(s: State, s': State, t: Id)
    requires LiveOk(s) && PipesOk(s) && HasResult(s, t) && s'.reserved == s.reserved
    requires s'.tasks == s.tasks[t := Take(s.tasks[t], 0)]
    ensures LiveOk(s')
  {
    assert PipeOk(s, t, s.tasks[t]) && EntryOk(s, t, s.tasks[t], 0);
    hide PipesOk, LiveOk;
    LiveFrame(s, s');
  }

  lemma {:induction false} StartLive(s: State, t: Id)
    requires LiveOk(s) && TasksOk(s) && TablesOk(s) && FreshOk(s) && CanStartUnshare(s, t)
    ensures LiveOk(StartUnshare(s, t))
  {
    hide TablesOk, FreshOk, FreshTable, Claims, CopyOf;
    assert TaskOk(s, s.tasks[t]);
    hide TasksOk;
    StableTable(s, t);
    var s' := StartUnshare(s, t);
    forall f | f in s'.reserved ensures exists u :: Unsharer(s', u, f) {
      if f == s.next {
        assert Unsharer(s', t, f);
      } else {
        var u :| Unsharer(s, u, f);
        assert Unsharer(s', u, f);
      }
    }
  }

  lemma {:induction false} HangLive(s: State, t: Id)
    requires LiveOk(s) && t in s.tasks
    ensures LiveOk(Hang(s, t))
  {
    hide LiveOk, CopyOf;
    LiveFrame(s, Hang(s, t));
  }

  lemma {:induction false} OtherLive(s: State, step: Step)
    requires LiveOk(s) && FreshOk(s) && Can(s, step)
    requires !step.DoRunOpen? && !step.DoRunClose? && !step.DoRunUnshare? && !step.DoOnOpened? && !step.DoOnClosed?
    requires !step.DoOnUnshared? && !step.DoStartUnshare? && !step.DoHang?
    ensures LiveOk(Apply(s, step))
  {
    hide LiveOk, CopyOf;
    LiveFrame(s, Apply(s, step));
  }

  lemma {:induction false} StepLive(s: State, step: Step)
    requires Inv(s) && LiveOk(s) && Can(s, step)
    ensures LiveOk(Apply(s, step))
  {
    hide TablesOk, TasksOk, PipesOk, ClosesOk, ArrivalsOk, TrackedOk, HandlesOk, LegacyOk, FreshOk, LiveOk;
    hide StartUnshare, Hang;
    match step
    case DoRunOpen(_, _) => RunLive(s, step);
    case DoRunClose(_) => RunLive(s, step);
    case DoRunUnshare(_) => RunLive(s, step);
    case DoOnOpened(_) => TakeLive(s, step);
    case DoOnClosed(_) => TakeLive(s, step);
    case DoOnUnshared(_) => TakeLive(s, step);
    case DoStartUnshare(t) => StartLive(s, t);
    case DoHang(t) => HangLive(s, t);
    case _ => OtherLive(s, step);
  }

  // ---------------------------------------------------------------- handles of tables still to be made

  /** Sets of such tables only shrink, and what is in them stays as it is. */
  lemma {:induction false} SetsFrame(s: State, s': State)
    requires SetsOk(s) && forall f :: f in s'.reserved ==> f in s.reserved
    requires forall k :: k in s'.tracked && k.table in s'.reserved ==>
               (k in s.tracked && s'.tracked[k] <= s.tracked[k]) || s'.tracked[k] == {}
    requires forall t :: t in s.tasks ==>
               t in s'.tasks && (s.tasks[t].py in s'.reserved ==> s'.tasks[t].py == s.tasks[t].py)
    requires forall k, h :: k in s'.tracked && k.table in s'.reserved && h in s'.tracked[k] && h in s.handles ==>
               h in s'.handles && s'.handles[h] == s.handles[h]
    ensures SetsOk(s')
  {
    forall k, h | k in s'.tracked && k.table in s'.reserved && h in s'.tracked[k]
      ensures h in s'.handles && s'.handles[h].valid && s'.handles[h].task in s'.tasks
              && s'.tasks[s'.handles[h].task].py == k.table
    {
      assert h in s.tracked[k];
    }
  }

  lemma {:induction false} MakeSets(s: State, t: Id, near: Id, file: Id)
    requires SetsOk(s) && FreshOk(s) && t in s.tasks && s.tasks[t].py !in s.reserved
    ensures SetsOk(MakeHandle(s, t, near, file))
  {
    assert forall h :: h in s.handles ==> h < s.next;
    hide SetsOk, FreshOk;
    SetsFrame(s, MakeHandle(s, t, near, file));
  }

  lemma {:induction false} OpenedSets(s: State, t: Id)
    requires SetsOk(s) && FreshOk(s) && TasksOk(s) && TablesOk(s) && CanSettle(s, t)
    ensures SetsOk(OnOpened(s, t))
  {
    assert TaskOk(s, s.tasks[t]);
    var s' := Settle(s, t);
    SetsFrame(s, s');
    assert FreshOk(s');
    hide SetsOk, FreshOk, TasksOk, TablesOk;
    var a := s.arrivals[s.tasks[t].pipe[0].o];
    if s.tasks[t].phase.Stable? { MakeSets(s', t, a.cell.near, a.file); }
  }

  lemma {:induction false} ShareSets(s: State, h: Id, t: Id)
    requires SetsOk(s) && FreshOk(s) && TasksOk(s) && TablesOk(s) && (CanShare(s, h, t) || CanInherit(s, h, t))
    ensures SetsOk(Share(s, h, t))
  {
    assert TaskOk(s, s.tasks[t]);
    MakeSets(s, t, s.handles[h].near, s.handles[h].file);
  }

  lemma {:induction false} UntrackSets(s: State, h: Id)
    requires SetsOk(s) && TrackedOk(s) && Current(s, h)
    ensures SetsOk(Untrack(s, h))
  {
    var s' := Untrack(s, h);
    forall k | k in s'.tracked && k.table in s'.reserved ensures h !in s'.tracked[k] {
      if h in s.tracked[k] { assert k == CellOf(s, h); }
    }
    hide SetsOk, TrackedOk;
    SetsFrame(s, s');
  }

  lemma {:induction false} InitiateSets(s: State, t: Id, near: Id, queued: bool, holder: Option<Id>)
    requires SetsOk(s) && t in s.tasks
    ensures SetsOk(Initiate(s, t, near, queued, holder))
  {
    hide SetsOk;
    SetsFrame(s, Initiate(s, t, near, queued, holder));
  }

  lemma {:induction false} InvalidateSets(s: State, h: Id)
    requires SetsOk(s) && TrackedOk(s) && Current(s, h)
    ensures SetsOk(Invalidate(s, h))
  {
    hide SetsOk, TrackedOk, Initiate;
    UntrackSets(s, h);
    if LastHandle(s, h) { InitiateSets(Untrack(s, h), s.handles[h].task, s.handles[h].near, true, Some(h)); }
  }

  lemma {:induction false} CopiedSets(s: State, from: Id, to: Id)
    requires SetsOk(s)
    ensures SetsOk(Copied(s, from, to))
  {
    hide SetsOk, CopyOf;
    SetsFrame(s, Copied(s, from, to));
  }

  lemma {:induction false} RunUnshareSets(s: State, t: Id)
    requires SetsOk(s) && CanRunUnshare(s, t)
    ensures SetsOk(RunUnshare(s, t))
  {
    hide SetsOk, CopyOf;
    SetsFrame(s, RunUnshare(s, t));
  }

  lemma {:induction false} SendSets(s: State, t: Id)
    requires SetsOk(s) && CanStartUnshare(s, t) && s.tasks[t].py !in s.reserved
    requires s.next !in s.tables && forall k :: k in s.tracked ==> k.table != s.next
    ensures SetsOk(SendUnshare(s, t))
  {
    hide FreshTable, Claims;
    var s' := SendUnshare(s, t);
    forall k, h | k in s'.tracked && k.table in s'.reserved && h in s'.tracked[k]
      ensures h in s'.handles && s'.handles[h].valid && s'.handles[h].task in s'.tasks
              && s'.tasks[s'.handles[h].task].py == k.table
    {
      if k.table == s.next {
        assert k in FreshTable(s, t, s.next) && h in FdHandles(s, t);
      } else {
        assert h in s.tracked[k];
      }
    }
  }

  lemma {:induction false} StartSets(s: State, t: Id)
    requires SetsOk(s) && TablesOk(s) && TasksOk(s) && FreshOk(s) && CanStartUnshare(s, t)
    ensures SetsOk(StartUnshare(s, t))
  {
    StableTable(s, t);
    assert forall k :: k in s.tracked ==> k.table != s.next;
    hide SetsOk, TablesOk, TasksOk, FreshOk, SendUnshare, Copied;
    SendSets(s, t);
    if s.tasks[t].dead { CopiedSets(SendUnshare(s, t), SendUnshare(s, t).tasks[t].phase.was,
        SendUnshare(s, t).tasks[t].py); }
  }

  lemma {:induction false} HangSets(s: State, t: Id)
    requires SetsOk(s) && t in s.tasks
    ensures SetsOk(Hang(s, t))
  {
    hide SetsOk, CopyOf;
    SetsFrame(s, Hang(s, t));
  }

  lemma {:induction false} OnUnsharedSets(s: State, t: Id)
    requires SetsOk(s) && CanOnUnshared(s, t)
    ensures SetsOk(OnUnshared(s, t))
  {
    hide SetsOk, FdHandles;
    SetsFrame(s, OnUnshared(s, t));
  }

  lemma {:induction false} CollectSets(s: State, h: Id)
    requires SetsOk(s)
    ensures SetsOk(Collect(s, h))
  {
    hide SetsOk;
    SetsFrame(s, Collect(s, h));
  }

  lemma {:induction false} OtherSets(s: State, step: Step)
    requires SetsOk(s) && FreshOk(s) && Can(s, step)
    requires || step.DoSubmitOpen? || step.DoRunOpen? || step.DoRunClose? || step.DoOnClosed? || step.DoSubmitClose?
             || step.DoHangClose? || step.DoCloneShared? || step.DoCloneCopied?
    ensures SetsOk(Apply(s, step))
  {
    assert forall t :: t in s.tasks ==> t < s.next;
    hide SetsOk, FreshOk, CopyOf;
    SetsFrame(s, Apply(s, step));
  }

  lemma {:induction false} StepSets(s: State, step: Step)
    requires Inv(s) && SetsOk(s) && Can(s, step)
    ensures SetsOk(Apply(s, step))
  {
    hide TablesOk, TasksOk, PipesOk, ClosesOk, ArrivalsOk, TrackedOk, HandlesOk, LegacyOk, FreshOk, SetsOk;
    hide StartUnshare, Hang, RunUnshare, OnOpened, OnUnshared, Share, Untrack, Invalidate, Collect, Initiate;
    match step
    case DoOnOpened(t) => OpenedSets(s, t);
    case DoForTask(h, t) => ShareSets(s, h, t);
    case DoInherit(h, t) => ShareSets(s, h, t);
    case DoRelease(h) => UntrackSets(s, h);
    case DoInvalidate(h) => InvalidateSets(s, h);
    case DoCollect(h) => CollectSets(s, h);
    case DoGc(t, near) => InitiateSets(s, t, near, false, None);
    case DoRunUnshare(t) => RunUnshareSets(s, t);
    case DoStartUnshare(t) => StartSets(s, t);
    case DoOnUnshared(t) => OnUnsharedSets(s, t);
    case DoHang(t) => HangSets(s, t);
    case _ => OtherSets(s, step);
  }

  // ---------------------------------------------------------------- submitted closes

  /** Closes are taken out only with their entry, and added only with one. */
  ghost predicate KeepsQueue(s: State, s': State, t: Id) {
    && (forall u :: u in s.tasks && u != t ==> u in s'.tasks && s'.tasks[u].pipe == s.tasks[u].pipe)
    && (forall c :: c in s'.closes && s'.closes[c].queued && c in s.closes && s.closes[c].queued ==>
         s'.closes[c].task == s.closes[c].task)
    && (forall c :: c in s'.closes && s'.closes[c].queued && !(c in s.closes && s.closes[c].queued) ==> QueuedAt(s', c))
    && (t in s.tasks ==> t in s'.tasks && forall c :: Closing(c) in s.tasks[t].pipe && c in s'.closes ==>
         Closing(c) in s'.tasks[t].pipe)
  }

  lemma {:induction false} QueuedFrame(s: State, s': State, t: Id)
    requires QueuedOk(s) && KeepsQueue(s, s', t)
    ensures QueuedOk(s')
  {
    forall c | c in s'.closes && s'.closes[c].queued ensures QueuedAt(s', c) {
      if c in s.closes && s.closes[c].queued { assert QueuedAt(s, c); }
    }
  }

  lemma {:induction false} PushKeepsEntries(t: Task, e: Entry)
    ensures e in Push(t, e).pipe && forall x :: x in t.pipe ==> x in Push(t, e).pipe
  {
    var p := Push(t, e).pipe;
    assert p[|t.pipe|] == e;
  }

  lemma {:induction false} RanKeepsEntries(t: Task, e: Entry)
    requires t.done < |t.pipe|
    ensures forall x :: x in t.pipe && x != t.pipe[t.done] ==> x in Ran(t, e).pipe
  {
    var p := Ran(t, e).pipe;
    forall x | x in t.pipe && x != t.pipe[t.done] ensures x in p {
      var i :| 0 <= i < |t.pipe| && t.pipe[i] == x;
      assert p[i] == x;
    }
  }

  lemma {:induction false} TakeKeepsEntries(t: Task, at: nat)
    requires at < |t.pipe|
    ensures forall x :: x in t.pipe && x != t.pipe[at] ==> x in Take(t, at).pipe
  {
    var p := Take(t, at).pipe;
    forall x | x in t.pipe && x != t.pipe[at] ensures x in p {
      var i :| 0 <= i < |t.pipe| && t.pipe[i] == x;
      assert p[if i < at then i else i - 1] == x;
    }
  }

  lemma {:induction false} RunQueued(s: State, step: Step)
    requires QueuedOk(s) && Can(s, step) && (step.DoRunOpen? || step.DoRunClose? || step.DoRunUnshare?)
    ensures QueuedOk(Apply(s, step))
  {
    var s', t := Apply(s, step), step.t;
    RanKeepsEntries(s.tasks[t], s'.tasks[t].pipe[s.tasks[t].done]);
    assert s'.tasks[t] == Ran(s.tasks[t], s'.tasks[t].pipe[s.tasks[t].done]);
    hide QueuedOk, CopyOf, Ran;
    QueuedFrame(s, s', t);
  }

  lemma {:induction false} TakeQueued(s: State, step: Step)
    requires QueuedOk(s) && Can(s, step)
             && (step.DoOnOpened? || step.DoOnClosed? || step.DoOnUnshared? || step.DoHangClose?)
    ensures QueuedOk(Apply(s, step))
  {
    hide QueuedOk, FdHandles, Take;
    var s', t := Apply(s, step), step.t;
    TakeKeepsEntries(s.tasks[t], if step.DoHangClose? then step.i else 0);
    QueuedFrame(s, s', t);
  }

  lemma {:induction false} InitiateQueued(s: State, t: Id, near: Id, queued: bool, holder: Option<Id>)
    requires QueuedOk(s) && FreshOk(s) && t in s.tasks
    ensures QueuedOk(Initiate(s, t, near, queued, holder))
  {
    PushKeepsEntries(s.tasks[t], Closing(s.next));
    assert s.next !in s.closes;
    hide QueuedOk, FreshOk, Push;
    QueuedFrame(s, Initiate(s, t, near, queued, holder), t);
  }

  lemma {:induction false} SubmitQueued(s: State, c: Id)
    requires QueuedOk(s) && CanSubmitClose(s, c)
    ensures QueuedOk(SubmitClose(s, c))
  {
    var t := s.closes[c].task;
    PushKeepsEntries(s.tasks[t], Closing(c));
    hide QueuedOk, Push;
    QueuedFrame(s, SubmitClose(s, c), t);
  }

  lemma {:induction false} StartQueued(s: State, t: Id)
    requires QueuedOk(s) && CanStartUnshare(s, t)
    ensures QueuedOk(StartUnshare(s, t))
  {
    PushKeepsEntries(s.tasks[t], Unshare);
    hide QueuedOk, FreshTable, Claims, CopyOf;
    QueuedFrame(s, StartUnshare(s, t), t);
  }

  lemma {:induction false} OtherQueued(s: State, step: Step)
    requires QueuedOk(s) && FreshOk(s) && Can(s, step)
    requires || step.DoSubmitOpen? || step.DoForTask? || step.DoInherit? || step.DoRelease? || step.DoCollect?
             || step.DoHang? || step.DoCloneShared? || step.DoCloneCopied?
    ensures QueuedOk(Apply(s, step))
  {
    if step.DoSubmitOpen? { PushKeepsEntries(s.tasks[step.t], Open); }
    assert s.next !in s.tasks;
    hide QueuedOk, FreshOk, Push, CopyOf;
    QueuedFrame(s, Apply(s, step), if step.DoSubmitOpen? then step.t else s.next);
  }

  lemma {:induction false} StepQueued(s: State, step: Step)
    requires Inv(s) && QueuedOk(s) && Can(s, step)
    ensures QueuedOk(Apply(s, step))
  {
    hide TablesOk, TasksOk, PipesOk, ClosesOk, ArrivalsOk, TrackedOk, HandlesOk, LegacyOk, FreshOk, QueuedOk;
    hide StartUnshare, SubmitClose, Initiate;
    match step
    case DoRunOpen(_, _) => RunQueued(s, step);
    case DoRunClose(_) => RunQueued(s, step);
    case DoRunUnshare(_) => RunQueued(s, step);
    case DoOnOpened(_) => TakeQueued(s, step);
    case DoOnClosed(_) => TakeQueued(s, step);
    case DoOnUnshared(_) => TakeQueued(s, step);
    case DoHangClose(_, _) => TakeQueued(s, step);
    case DoInvalidate(h) => InvalidateQueued(s, h);
    case DoGc(t, near) => InitiateQueued(s, t, near, false, None);
    case DoSubmitClose(c) => SubmitQueued(s, c);
    case DoStartUnshare(t) => StartQueued(s, t);
    case _ => OtherQueued(s, step);
  }

  lemma {:induction false} InvalidateQueued(s: State, h: Id)
    requires QueuedOk(s) && FreshOk(s) && Current(s, h)
    ensures QueuedOk(Invalidate(s, h))
  {
    var s' := Untrack(s, h);
    assert QueuedOk(s') && FreshOk(s');
    hide QueuedOk, FreshOk, Initiate, Untrack;
    if LastHandle(s, h) { InitiateQueued(s', s.handles[h].task, s.handles[h].near, true, Some(h)); }
  }
}
