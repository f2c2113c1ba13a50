/** Every step of `FdTables` keeps the whole invariant. */
module FdSteps {
  import opened Prelude
  import opened FdTables
  import opened FdInvariant

  // ---------------------------------------------------------------- all pipes

  /** Only task `t`, its closes and its arrivals change. */
  lemma {:induction false} PipesExcept(s: State, s': State, t: Id)
    requires PipesOk(s)
    requires forall u :: u in s'.tasks && u != t ==> u in s.tasks && s'.tasks[u] == s.tasks[u]
    requires forall c :: c in s.closes && s.closes[c].task != t && s.closes[c].queued ==>
               c in s'.closes && s'.closes[c] == s.closes[c]
    requires forall o :: o in s.arrivals && s.arrivals[o].task != t ==>
               o in s'.arrivals && s'.arrivals[o] == s.arrivals[o]
    requires t in s'.tasks ==> PipeOk(s', t, s'.tasks[t])
    ensures PipesOk(s')
  {
    forall u | u in s'.tasks ensures PipeOk(s', u, s'.tasks[u]) {
      if u != t { PipeFrame(s, s', u, s.tasks[u]); }
    }
  }

  /** Tasks, arrivals and submitted closes stay; closes may be added. */
  lemma {:induction false} PipesSame(s: State, s': State)
    requires PipesOk(s) && s'.tasks == s.tasks && s'.arrivals == s.arrivals
    requires forall c :: c in s.closes && s.closes[c].queued ==> c in s'.closes && s'.closes[c] == s.closes[c]
    ensures PipesOk(s')
  {
    forall u | u in s'.tasks ensures PipeOk(s', u, s'.tasks[u]) {
      PipeFrame(s, s', u, s.tasks[u]);
    }
  }

  lemma {:induction false} SubmitOpenPipes(s: State, t: Id)
    requires PipesOk(s) && t in s.tasks
    ensures PipesOk(SubmitOpen(s, t))
  {
    var s' := SubmitOpen(s, t);
    PushPipe(s, t, s.tasks[t], Open);
    PipeFrame(s, s', t, s'.tasks[t]);
    PipesExcept(s, s', t);
  }

  lemma {:induction false} RunOpenPipes(s: State, t: Id, near: Id)
    requires PipesOk(s) && FreshOk(s) && CanRunOpen(s, t, near)
    ensures PipesOk(RunOpen(s, t, near))
  {
    var s', task := RunOpen(s, t, near), s.tasks[t];
    assert PipeOk(s, t, task);
    EntriesIn(s, t, task);
    assert Opened(s.next) !in task.pipe;
    RanPipe(s, s', t, task, Opened(s.next));
    PipesExcept(s, s', t);
  }

  /** The closes and arrivals a pipe names exist. */
  lemma {:induction false} EntriesIn(s: State, id: Id, t: Task)
    requires PipeOk(s, id, t)
    ensures forall i :: 0 <= i < |t.pipe| && t.pipe[i].Closing? ==> t.pipe[i].c in s.closes
    ensures forall i :: 0 <= i < |t.pipe| && t.pipe[i].Opened? ==> t.pipe[i].o in s.arrivals
  {
    forall i | 0 <= i < |t.pipe|
      ensures t.pipe[i].Closing? ==> t.pipe[i].c in s.closes
      ensures t.pipe[i].Opened? ==> t.pipe[i].o in s.arrivals
    {
      assert EntryOk(s, id, t, i);
    }
  }

  lemma {:induction false} RunClosePipes(s: State, t: Id)
    requires PipesOk(s) && CanRunClose(s, t)
    ensures PipesOk(RunClose(s, t))
  {
    var s', task := RunClose(s, t), s.tasks[t];
    var c := NextCall(s, t).c;
    assert PipeOk(s, t, task) && EntryOk(s, t, task, task.done);
    EntriesIn(s, t, task);
    RanPipe(s, s', t, task, Closed(s.closes[c].near, s.closes[c].origin));
    PipesExcept(s, s', t);
  }

  lemma {:induction false} RunUnsharePipes(s: State, t: Id)
    requires PipesOk(s) && CanRunUnshare(s, t)
    ensures PipesOk(RunUnshare(s, t))
  {
    hide CopyOf;
    var s', task := RunUnshare(s, t), s.tasks[t];
    assert PipeOk(s, t, task) && EntryOk(s, t, task, task.done);
    EntriesIn(s, t, task);
    RanPipe(s, s', t, task, Unshare);
    PipesExcept(s, s', t);
  }

  lemma {:induction false} SettlePipes(s: State, t: Id)
    requires PipesOk(s) && CanSettle(s, t)
    ensures PipesOk(Settle(s, t))
  {
    var s', task := Settle(s, t), s.tasks[t];
    assert PipeOk(s, t, task) && EntryOk(s, t, task, 0);
    EntriesIn(s, t, task);
    TakePipe(s, s', t, task, 0);
    PipesExcept(s, s', t);
  }

  lemma {:induction false} OnClosedPipes(s: State, t: Id)
    requires PipesOk(s) && CanOnClosed(s, t)
    ensures PipesOk(OnClosed(s, t))
  {
    var s', task := OnClosed(s, t), s.tasks[t];
    assert PipeOk(s, t, task);
    EntriesIn(s, t, task);
    TakePipe(s, s', t, task, 0);
    PipesExcept(s, s', t);
  }

  lemma {:induction false} OnUnsharedPipes(s: State, t: Id)
    requires PipesOk(s) && CanOnUnshared(s, t)
    ensures PipesOk(OnUnshared(s, t))
  {
    var s', task := OnUnshared(s, t), s.tasks[t];
    assert PipeOk(s, t, task);
    EntriesIn(s, t, task);
    TakePipe(s, s', t, task, 0);
    PipesExcept(s, s', t);
  }

  lemma {:induction false} HangClosePipes(s: State, t: Id, i: nat)
    requires PipesOk(s) && CanHangClose(s, t, i)
    ensures PipesOk(HangClose(s, t, i))
  {
    var s', task := HangClose(s, t, i), s.tasks[t];
    assert PipeOk(s, t, task) && EntryOk(s, t, task, i);
    EntriesIn(s, t, task);
    TakePipe(s, s', t, task, i);
    PipesExcept(s, s', t);
  }

  lemma {:induction false} InitiatePipes(s: State, t: Id, near: Id, queued: bool, holder: Option<Id>)
    requires PipesOk(s) && FreshOk(s) && t in s.tasks
    ensures PipesOk(Initiate(s, t, near, queued, holder))
  {
    var s', task := Initiate(s, t, near, queued, holder), s.tasks[t];
    if queued {
      EntriesIn(s, t, task);
      PipeFrame(s, s', t, task);
      assert Closing(s.next) !in task.pipe;
      PushPipe(s', t, task, Closing(s.next));
      PipesExcept(s, s', t);
    } else {
      PipesSame(s, s');
    }
  }

  lemma {:induction false} SubmitClosePipes(s: State, c: Id)
    requires PipesOk(s) && CanSubmitClose(s, c) && s.closes[c].dest == s.tasks[s.closes[c].task].py
    ensures PipesOk(SubmitClose(s, c))
  {
    var t := s.closes[c].task;
    var s', task := SubmitClose(s, c), s.tasks[t];
    assert PipeOk(s, t, task);
    forall i | 0 <= i < |task.pipe| ensures task.pipe[i] != Closing(c) {
      assert EntryOk(s, t, task, i);
    }
    PipeFrame(s, s', t, task);
    PushPipe(s', t, task, Closing(c));
    PipesExcept(s, s', t);
  }

  lemma {:induction false} SendUnsharePipes(s: State, t: Id)
    requires PipesOk(s) && CanStartUnshare(s, t)
    ensures PipesOk(SendUnshare(s, t))
  {
    hide FreshTable, Claims;
    var s', task := SendUnshare(s, t), s.tasks[t];
    assert forall c :: c in s.closes && s.closes[c].queued ==> c in s'.closes && s'.closes[c] == s.closes[c];
    PipeFrame(s, s', t, task);
    UnsharePipe(s', t, task, s.next);
    PipesExcept(s, s', t);
  }

  lemma {:induction false} UnsharePipe(s: State, id: Id, t: Task, to: Id)
    requires PipeOk(s, id, t) && t.phase.Stable?
    ensures PipeOk(s, id, Task(to, Unsharing(t.py, |t.pipe|), t.pipe + [Unshare], t.done, t.dead))
  {
    var u := Task(to, Unsharing(t.py, |t.pipe|), t.pipe + [Unshare], t.done, t.dead);
    forall i | 0 <= i < |u.pipe| ensures EntryOk(s, id, u, i) {
      if i < |t.pipe| { assert EntryOk(s, id, t, i); }
    }
  }

  // ---------------------------------------------------------------- tasks and fresh identities

  /** Tasks change only in their pipes, not across their unshare. */
  lemma {:induction false} TasksFrame(s: State, s': State)
    requires TasksOk(s) && s'.tables == s.tables && s'.reserved == s.reserved
    requires forall t :: t in s'.tasks ==> t in s.tasks && s'.tasks[t].py == s.tasks[t].py && TaskOk(s', s'.tasks[t])
    ensures TasksOk(s')
  {
  }

  lemma {:induction false} PushTask(s: State, s': State, t: Task, e: Entry)
    requires TaskOk(s, t) && s'.tables == s.tables && s'.reserved == s.reserved
    ensures TaskOk(s', Push(t, e)) && TaskOk(s', t)
  {
  }

  lemma {:induction false} TasksPush(s: State, s': State, t: Id, e: Entry)
    requires TasksOk(s) && t in s.tasks && s'.tables == s.tables && s'.reserved == s.reserved
    requires s'.tasks == s.tasks[t := Push(s.tasks[t], e)]
    ensures TasksOk(s') && SameViews(s, s')
  {
    forall u | u in s'.tasks ensures TaskOk(s', s'.tasks[u]) {
      PushTask(s, s', s.tasks[u], e);
    }
    TasksFrame(s, s');
  }

  lemma {:induction false} TasksSame(s: State, s': State)
    requires TasksOk(s) && s'.tables == s.tables && s'.reserved == s.reserved && s'.tasks == s.tasks
    ensures TasksOk(s') && SameViews(s, s')
  {
    forall u | u in s'.tasks ensures TaskOk(s', s'.tasks[u]) {
      PushTask(s, s', s.tasks[u], Open);
    }
    TasksFrame(s, s');
  }

  /** Handling a result other than the unshare's. */
  lemma {:induction false} TasksTake(s: State, s': State, t: Id)
    requires TasksOk(s) && HasResult(s, t) && s'.tables == s.tables && s'.reserved == s.reserved
    requires s.tasks[t].phase.Unsharing? ==> s.tasks[t].phase.pos != 0
    requires s'.tasks == s.tasks[t := Take(s.tasks[t], 0)]
    ensures TasksOk(s') && SameViews(s, s')
  {
    forall u | u in s'.tasks ensures TaskOk(s', s'.tasks[u]) {
      assert TaskOk(s, s.tasks[u]);
    }
    TasksFrame(s, s');
  }

  /** New identities are taken from `next` upwards. */
  ghost predicate Grows(s: State, s': State) {
    && s.next <= s'.next
    && (forall t :: t in s'.tasks && t !in s.tasks ==> t < s'.next)
    && (forall t :: (t in s'.tables || t in s'.reserved) && t !in s.tables && t !in s.reserved ==> t < s'.next)
    && (forall h :: h in s'.handles && h !in s.handles ==> h < s'.next)
    && (forall c :: c in s'.closes && c !in s.closes ==> c < s'.next)
    && (forall o :: o in s'.arrivals && o !in s.arrivals ==> o < s'.next)
  }

  lemma {:induction false} FreshGrows(s: State, s': State)
    requires FreshOk(s) && Grows(s, s')
    ensures FreshOk(s')
  {
  }

  // ---------------------------------------------------------------- whole steps

  /** What the pipe says about the call the kernel runs next. */
  lemma {:induction false} AtHand(s: State, t: Id)
    requires TasksOk(s) && PipesOk(s) && Ready(s, t)
    ensures KernelOf(s.tasks[t]) in s.tables
    ensures NextCall(s, t) != Unshare ==> NotUnshare(s, t)
    ensures EntryOk(s, t, s.tasks[t], s.tasks[t].done)
  {
    assert TaskOk(s, s.tasks[t]) && PipeOk(s, t, s.tasks[t]);
  }

  lemma {:induction false} FirstResult(s: State, t: Id)
    requires PipesOk(s) && HasResult(s, t)
    ensures EntryOk(s, t, s.tasks[t], 0)
    ensures s.tasks[t].pipe[0] != Unshare ==> (s.tasks[t].phase.Unsharing? ==> s.tasks[t].phase.pos != 0)
  {
    assert PipeOk(s, t, s.tasks[t]);
  }

  lemma {:induction false} RunOpenKeeps(s: State, t: Id, near: Id)
    requires Inv(s) && CanRunOpen(s, t, near)
    ensures Inv(RunOpen(s, t, near))
  {
    AtHand(s, t);
    FreshGrows(s, RunOpen(s, t, near));
    hide TablesOk, TasksOk, PipesOk, ClosesOk, ArrivalsOk, TrackedOk, HandlesOk, LegacyOk, FreshOk;
    RunOpenTables(s, t, near);
    RunOpenTasks(s, t, near);
    RunOpenPipes(s, t, near);
    RunOpenCloses(s, t, near);
    RunOpenArrivals(s, t, near);
    RunOpenTracked(s, t, near);
    RunOpenHandles(s, t, near);
    RunOpenLegacy(s, t, near);
  }

  lemma {:induction false} CloseAtHand(s: State, t: Id)
    requires TablesOk(s) && TasksOk(s) && PipesOk(s) && ClosesOk(s) && CanRunClose(s, t)
    ensures Closable(s, t) && NotUnshare(s, t)
  {
    AtHand(s, t);
    assert CloseOk(s, NextCall(s, t).c, s.closes[NextCall(s, t).c]);
  }

  lemma {:induction false} RunCloseKeeps(s: State, t: Id)
    requires Inv(s) && CanRunClose(s, t)
    ensures Inv(RunClose(s, t))
  {
    CloseAtHand(s, t);
    FreshGrows(s, RunClose(s, t));
    hide TablesOk, TasksOk, PipesOk, ClosesOk, ArrivalsOk, TrackedOk, HandlesOk, LegacyOk, FreshOk;
    RunCloseTables(s, t);
    RunCloseTasks(s, t);
    RunClosePipes(s, t);
    RunCloseCloses(s, t);
    RunCloseArrivals(s, t);
    RunCloseTracked(s, t);
    RunCloseHandles(s, t);
    RunCloseLegacy(s, t);
  }

  /** A reserved table turns into a copy; tasks and pipes may change with it. */
  lemma {:induction false} CopiedKeeps(s: State, s0: State, from: Id, to: Id)
    requires Inv(s) && to in s.reserved && s.reserved[to] == from
    requires s0 == s.(tasks := s0.tasks) && SameViews(s, s0) && forall t :: t in s0.tasks ==> t in s.tasks
    requires TasksOk(Copied(s0, from, to)) && PipesOk(Copied(s0, from, to))
    ensures Inv(Copied(s0, from, to))
  {
    hide TablesOk, TasksOk, PipesOk, ArrivalsOk, TrackedOk, HandlesOk, LegacyOk, CopyOf, SameViews, ClosesOk;
    TablesFrame(s, s0);
    ArrivalsFrame(s, s0);
    TrackedFrame(s, s0);
    LegacyFrame(s, s0);
    HandlesFrame(s, s0);
    ClosesFrame(s, s0);
    CopiedTables(s0, from, to);
    CopiedCloses(s0, from, to);
    CopiedArrivals(s0, from, to);
    CopiedTracked(s0, from, to);
    CopiedLegacy(s0, from, to);
    CopiedHandles(s0, from, to);
    CopiedFresh(s, s0, from, to);
  }

  lemma {:induction false} CopiedHandles(s: State, from: Id, to: Id)
    requires HandlesOk(s)
    ensures HandlesOk(Copied(s, from, to))
  {
    hide CopyOf, HandlesOk;
    HandlesFrame(s, Copied(s, from, to));
  }

  lemma {:induction false} CopiedFresh(s: State, s0: State, from: Id, to: Id)
    requires FreshOk(s) && to in s.reserved && s0 == s.(tasks := s0.tasks) && forall t :: t in s0.tasks ==> t in s.tasks
    ensures FreshOk(Copied(s0, from, to))
  {
    hide CopyOf;
  }

  lemma {:induction false} RunUnshareKeeps(s: State, t: Id)
    requires Inv(s) && CanRunUnshare(s, t)
    ensures Inv(RunUnshare(s, t))
  {
    AtHand(s, t);
    assert TaskOk(s, s.tasks[t]);
    var task := s.tasks[t];
    var s0 := s.(tasks := s.tasks[t := Ran(task, Unshare)]);
    hide TablesOk, TasksOk, PipesOk, ClosesOk, ArrivalsOk, TrackedOk, HandlesOk, LegacyOk, FreshOk, CopyOf;
    RunUnshareTasks(s, t);
    RunUnsharePipes(s, t);
    CopiedKeeps(s, s0, task.phase.was, task.py);
  }

  /** Steps that only touch pipes. */
  lemma {:induction false} QuietKeeps(s: State, s': State)
    requires Inv(s) && SameTables(s, s') && SameViews(s, s') && s'.closes == s.closes
    requires TasksOk(s') && PipesOk(s') && FreshOk(s')
    ensures Inv(s')
  {
    hide TablesOk, TasksOk, PipesOk, ClosesOk, ArrivalsOk, TrackedOk, HandlesOk, LegacyOk, FreshOk, SameViews;
    TablesFrame(s, s');
    ArrivalsFrame(s, s');
    TrackedFrame(s, s');
    LegacyFrame(s, s');
    HandlesFrame(s, s');
    ClosesFrame(s, s');
  }

  lemma {:induction false} SubmitOpenKeeps(s: State, t: Id)
    requires Inv(s) && t in s.tasks
    ensures Inv(SubmitOpen(s, t))
  {
    var s' := SubmitOpen(s, t);
    TasksPush(s, s', t, Open);
    SubmitOpenPipes(s, t);
    FreshGrows(s, s');
    QuietKeeps(s, s');
  }

  lemma {:induction false} OnClosedKeeps(s: State, t: Id)
    requires Inv(s) && CanOnClosed(s, t)
    ensures Inv(OnClosed(s, t))
  {
    var s' := OnClosed(s, t);
    FirstResult(s, t);
    TasksTake(s, s', t);
    OnClosedPipes(s, t);
    FreshGrows(s, s');
    QuietKeeps(s, s');
  }

  lemma {:induction false} HangTasks(s: State, t: Id)
    requires TasksOk(s) && PipesOk(s) && t in s.tasks
    ensures TasksOk(MarkDead(s, t)) && PipesOk(MarkDead(s, t)) && SameViews(s, MarkDead(s, t))
  {
    var s' := MarkDead(s, t);
    forall u | u in s'.tasks ensures TaskOk(s', s'.tasks[u]) {
      assert TaskOk(s, s.tasks[u]);
    }
    TasksFrame(s, s');
    PipeFrame(s, s', t, s.tasks[t]);
    assert PipeOk(s', t, s'.tasks[t]) by {
      forall i | 0 <= i < |s'.tasks[t].pipe| ensures EntryOk(s', t, s'.tasks[t], i) {
        assert EntryOk(s', t, s.tasks[t], i);
      }
    }
    PipesExcept(s, s', t);
  }

  lemma {:induction false} AbandonKeeps(s: State, t: Id)
    requires Inv(s) && CanAbandon(s, t) && s.tasks[t].dead
    ensures Inv(Abandon(s, t))
  {
    assert TaskOk(s, s.tasks[t]) && s.tasks[t].py !in s.tables;
    assert SameViews(s, s);
    hide TablesOk, TasksOk, PipesOk, ClosesOk, ArrivalsOk, TrackedOk, HandlesOk, LegacyOk, FreshOk, CopyOf;
    AbandonTasks(s, t);
    PipesSame(s, Abandon(s, t));
    CopiedKeeps(s, s, s.tasks[t].phase.was, s.tasks[t].py);
  }

  lemma {:induction false} HangKeeps(s: State, t: Id)
    requires Inv(s) && t in s.tasks
    ensures Inv(Hang(s, t))
  {
    var s' := MarkDead(s, t);
    HangTasks(s, t);
    FreshGrows(s, s');
    QuietKeeps(s, s');
    hide Inv, Abandon;
    if CanAbandon(s', t) { AbandonKeeps(s', t); }
  }

  lemma {:induction false} CloneSharedTasks(s: State, t: Id)
    requires TasksOk(s) && PipesOk(s) && FreshOk(s) && CanStartUnshare(s, t)
    requires s.tasks[t].py in s.tables && s.tasks[t].py !in s.reserved
    ensures TasksOk(CloneShared(s, t)) && PipesOk(CloneShared(s, t)) && SameViews(s, CloneShared(s, t))
  {
    var s' := CloneShared(s, t);
    forall u | u in s'.tasks ensures TaskOk(s', s'.tasks[u]) {
      if u != s.next { assert TaskOk(s, s.tasks[u]); }
    }
    PipesExcept(s, s', s.next);
  }

  /** A task outside an unshare is in a kernel table. */
  lemma {:induction false} StableTable(s: State, t: Id)
    requires TablesOk(s) && TasksOk(s) && FreshOk(s) && CanStartUnshare(s, t)
    ensures s.tasks[t].py in s.tables && s.tasks[t].py !in s.reserved
    ensures s.next !in s.tables && s.next !in s.reserved && s.next !in s.tasks && s.next !in s.handles
            && s.next !in s.closes
  {
    assert TaskOk(s, s.tasks[t]);
  }

  lemma {:induction false} CloneSharedKeeps(s: State, t: Id)
    requires Inv(s) && CanStartUnshare(s, t)
    ensures Inv(CloneShared(s, t))
  {
    StableTable(s, t);
    CloneSharedTasks(s, t);
    FreshGrows(s, CloneShared(s, t));
    QuietKeeps(s, CloneShared(s, t));
  }

  lemma {:induction false} CloneCopiedPipes(s: State, t: Id)
    requires PipesOk(s) && CanStartUnshare(s, t) && s.next !in s.tasks
    ensures PipesOk(CloneCopied(s, t))
  {
    hide CopyOf;
    PipesExcept(s, CloneCopied(s, t), s.next);
  }

  lemma {:induction false} CloneCopiedKeeps(s: State, t: Id)
    requires Inv(s) && CanStartUnshare(s, t)
    ensures Inv(CloneCopied(s, t))
  {
    StableTable(s, t);
    FreshGrows(s, CloneCopied(s, t));
    hide TablesOk, TasksOk, PipesOk, ClosesOk, ArrivalsOk, TrackedOk, HandlesOk, LegacyOk, FreshOk, CopyOf, CloneCopied;
    CloneCopiedTables(s, t);
    CloneCopiedTasks(s, t);
    CloneCopiedPipes(s, t);
    CloneCopiedCloses(s, t);
    CloneCopiedArrivals(s, t);
    CloneCopiedTracked(s, t);
    CloneCopiedHandles(s, t);
    CloneCopiedLegacy(s, t);
  }

  lemma {:induction false} SettleKeeps(s: State, t: Id)
    requires Inv(s) && CanSettle(s, t)
    ensures Inv(Settle(s, t)) && Settleable(s, t)
  {
    var s' := Settle(s, t);
    FirstResult(s, t);
    assert Settleable(s, t);
    FreshGrows(s, s');
    TasksTake(s, s', t);
    hide TablesOk, TasksOk, PipesOk, ClosesOk, ArrivalsOk, TrackedOk, HandlesOk, LegacyOk, FreshOk;
    SettleTables(s, t);
    SettlePipes(s, t);
    SettleCloses(s, t);
    SettleArrivals(s, t);
    SettleLegacy(s, t);
    SettleTracked(s, t);
    HandlesFrame(s, s');
  }

  lemma {:induction false} SettleTracked(s: State, t: Id)
    requires TrackedOk(s) && CanSettle(s, t)
    ensures TrackedOk(Settle(s, t))
  {
  }

  lemma {:induction false} MakeHandleKeeps(s: State, t: Id, near: Id, file: Id)
    requires Inv(s) && CanMake(s, t, near, file)
    ensures Inv(MakeHandle(s, t, near, file))
  {
    var s' := MakeHandle(s, t, near, file);
    assert s.next !in s.handles;
    FreshGrows(s, s');
    TasksSame(s, s');
    PipesSame(s, s');
    hide TablesOk, TasksOk, PipesOk, ClosesOk, ArrivalsOk, TrackedOk, HandlesOk, LegacyOk, FreshOk;
    MakeHandleTables(s, t, near, file);
    MakeHandleCloses(s, t, near, file);
    MakeHandleArrivals(s, t, near, file);
    MakeHandleTracked(s, t, near, file);
    MakeHandleHandles(s, t, near, file);
    MakeHandleLegacy(s, t, near, file);
  }

  lemma {:induction false} UntrackKeeps(s: State, h: Id)
    requires Inv(s) && Current(s, h)
    ensures Inv(Untrack(s, h))
  {
    var s' := Untrack(s, h);
    FreshGrows(s, s');
    TasksSame(s, s');
    PipesSame(s, s');
    hide TablesOk, TasksOk, PipesOk, ClosesOk, ArrivalsOk, TrackedOk, HandlesOk, LegacyOk, FreshOk;
    UntrackTables(s, h);
    ClosesFrame(s, s');
    UntrackArrivals(s, s');
    UntrackTracked(s, h);
    UntrackHandles(s, h);
    UntrackLegacy(s, h);
  }

  lemma {:induction false} UntrackArrivals(s: State, s': State)
    requires ArrivalsOk(s) && s'.arrivals == s.arrivals && s'.kernel == s.kernel && s'.owner == s.owner
    ensures ArrivalsOk(s')
  {
  }

  lemma {:induction false} CollectKeeps(s: State, h: Id)
    requires Inv(s) && CanCollect(s, h)
    ensures Inv(Collect(s, h))
  {
    var s' := Collect(s, h);
    FreshGrows(s, s');
    TasksSame(s, s');
    PipesSame(s, s');
    hide TablesOk, TasksOk, PipesOk, ClosesOk, ArrivalsOk, TrackedOk, HandlesOk, LegacyOk, FreshOk;
    CollectTables(s, h);
    ClosesFrame(s, s');
    UntrackArrivals(s, s');
    CollectTracked(s, h);
    CollectHandles(s, h);
    CollectLegacy(s, h);
  }

  lemma {:induction false} InitiateTasks(s: State, t: Id, near: Id, queued: bool, holder: Option<Id>)
    requires TasksOk(s) && t in s.tasks
    ensures TasksOk(Initiate(s, t, near, queued, holder))
  {
    var s' := Initiate(s, t, near, queued, holder);
    if queued { TasksPush(s, s', t, Closing(s.next)); } else { TasksSame(s, s'); }
  }

  lemma {:induction false} InitiateKeeps(s: State, t: Id, near: Id, queued: bool, holder: Option<Id>)
    requires Inv(s) && CanInitiate(s, t, near)
    ensures Inv(Initiate(s, t, near, queued, holder))
  {
    var s' := Initiate(s, t, near, queued, holder);
    assert s.next !in s.closes;
    FreshGrows(s, s');
    hide TablesOk, TasksOk, PipesOk, ClosesOk, ArrivalsOk, TrackedOk, HandlesOk, LegacyOk, FreshOk;
    InitiateTables(s, t, near, queued, holder);
    InitiateTasks(s, t, near, queued, holder);
    InitiatePipes(s, t, near, queued, holder);
    InitiateCloses(s, t, near, queued, holder);
    InitiateArrivals(s, t, near, queued, holder);
    InitiateTracked(s, t, near, queued, holder);
    InitiateHandles(s, t, near, queued, holder);
    InitiateLegacy(s, t, near, queued, holder);
  }

  lemma {:induction false} SubmitCloseCloses(s: State, c: Id)
    requires ClosesOk(s) && CanSubmitClose(s, c) && SameViews(s, SubmitClose(s, c))
    ensures ClosesOk(SubmitClose(s, c))
  {
    var s' := SubmitClose(s, c);
    forall d | d in s'.closes ensures CloseOk(s', d, s'.closes[d]) {
      assert CloseOk(s, d, s.closes[d]);
    }
  }

  lemma {:induction false} SubmitCloseKeeps(s: State, c: Id)
    requires Inv(s) && CanSubmitClose(s, c)
    ensures Inv(SubmitClose(s, c))
  {
    var s' := SubmitClose(s, c);
    assert CloseOk(s, c, s.closes[c]);
    TasksPush(s, s', s.closes[c].task, Closing(c));
    SubmitClosePipes(s, c);
    FreshGrows(s, s');
    hide TablesOk, TasksOk, PipesOk, ClosesOk, ArrivalsOk, TrackedOk, HandlesOk, LegacyOk, FreshOk, SameViews;
    SubmitCloseCloses(s, c);
    TablesFrame(s, s');
    ArrivalsFrame(s, s');
    TrackedFrame(s, s');
    LegacyFrame(s, s');
    HandlesFrame(s, s');
  }

  lemma {:induction false} OnUnsharedKeeps(s: State, t: Id)
    requires Inv(s) && CanOnUnshared(s, t)
    ensures Inv(OnUnshared(s, t))
  {
    var s' := OnUnshared(s, t);
    FirstResult(s, t);
    assert TaskOk(s, s.tasks[t]);
    FreshGrows(s, s');
    assert SameViews(s, s');
    hide TablesOk, TasksOk, PipesOk, ClosesOk, ArrivalsOk, TrackedOk, HandlesOk, LegacyOk, FreshOk, SameViews;
    OnUnsharedTables(s, t);
    OnUnsharedTasks(s, t);
    OnUnsharedPipes(s, t);
    ClosesFrame(s, s');
    UntrackArrivals(s, s');
    OnUnsharedTracked(s, t);
    OnUnsharedHandles(s, t);
    OnUnsharedLegacy(s, t);
  }

  lemma {:induction false} OnUnsharedLegacy(s: State, t: Id)
    requires LegacyOk(s) && CanOnUnshared(s, t)
    ensures LegacyOk(OnUnshared(s, t))
  {
  }

  lemma {:induction false} SendUnshareKeeps(s: State, t: Id)
    requires Inv(s) && CanStartUnshare(s, t)
    ensures Inv(SendUnshare(s, t))
  {
    StableTable(s, t);
    FreshGrows(s, SendUnshare(s, t));
    hide TablesOk, TasksOk, PipesOk, ClosesOk, ArrivalsOk, TrackedOk, HandlesOk, LegacyOk, FreshOk;
    hide FreshTable, Claims, SendUnshare;
    SendUnshareTables(s, t);
    SendUnshareTasks(s, t);
    SendUnsharePipes(s, t);
    SendUnshareCloses(s, t);
    SendUnshareArrivals(s, t);
    SendUnshareTracked(s, t);
    SendUnshareHandles(s, t);
    SendUnshareLegacy(s, t);
  }

  lemma {:induction false} StartUnshareKeeps(s: State, t: Id)
    requires Inv(s) && CanStartUnshare(s, t)
    ensures Inv(StartUnshare(s, t))
  {
    SendUnshareKeeps(s, t);
    hide Inv, Abandon, FreshTable, Claims;
    if s.tasks[t].dead { AbandonKeeps(SendUnshare(s, t), t); }
  }

  lemma {:induction false} HangCloseKeeps(s: State, t: Id, i: nat)
    requires Inv(s) && CanHangClose(s, t, i)
    ensures Inv(HangClose(s, t, i))
  {
    assert PipeOk(s, t, s.tasks[t]) && CloseOk(s, s.tasks[t].pipe[i].c, s.closes[s.tasks[t].pipe[i].c]);
    FreshGrows(s, HangClose(s, t, i));
    hide TablesOk, TasksOk, PipesOk, ClosesOk, ArrivalsOk, TrackedOk, HandlesOk, LegacyOk, FreshOk;
    HangCloseTables(s, t, i);
    HangCloseTasks(s, t, i);
    HangClosePipes(s, t, i);
    HangCloseCloses(s, t, i);
    HangCloseArrivals(s, t, i);
    HangCloseTracked(s, t, i);
    HangCloseHandles(s, t, i);
    HangCloseLegacy(s, t, i);
  }
}
