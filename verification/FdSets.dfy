/** What the steps do to the sets of handles of every table, and to the kernel's tables. */
module FdSets {
  import opened Prelude
  import opened FdTables
  import opened FdInvariant
  import opened FdSafety
  import opened FdEffects

  /** One set has one more member, and is there now; the others are as before. */
  ghost predicate TracksOneMore(was: map<Cell, set<Id>>, now: map<Cell, set<Id>>, k: Cell, h: Id) {
    && now.Keys == was.Keys + {k}
    && (forall j :: j in was ==> now[j] == was[j] + if j == k then {h} else {})
    && (k !in was ==> now[k] == {h})
  }

  /** One set loses this handle. */
  ghost predicate TracksOneLess(was: map<Cell, set<Id>>, now: map<Cell, set<Id>>, k: Cell, h: Id) {
    now.Keys == was.Keys && forall j :: j in was ==> now[j] == if j == k then was[j] - {h} else was[j]
  }

  /** One number is forgotten. */
  ghost predicate Forgets(was: map<Cell, set<Id>>, now: map<Cell, set<Id>>, k: Cell) {
    now.Keys == was.Keys - {k} && forall j :: j in now ==> now[j] == was[j]
  }

  /** The task's handles are in the fresh table's sets for their numbers; the other sets are as before. */
  ghost predicate AlsoTracks(s: State, s': State, t: Id, to: Id) {
    && s'.handles == s.handles && t in s'.tasks && s'.tasks[t].py == to
    && (forall k :: k in s.tracked ==> k in s'.tracked && s'.tracked[k] == s.tracked[k])
    && (forall h :: h in FdHandles(s, t) ==>
         Cell(to, s.handles[h].near) in s'.tracked && h in s'.tracked[Cell(to, s.handles[h].near)])
    && (forall k, h :: k in s'.tracked && k !in s.tracked && h in s'.tracked[k] ==>
         k.table == to && h in FdHandles(s, t) && s.handles[h].near == k.near)
    && (forall k :: k in s'.tracked && k !in s.tracked ==> s'.tracked[k] != {})
  }

  /** What a step does to the sets of handles of every table. */
  ghost predicate SetsChange(s: State, step: Step, s': State)
    requires Can(s, step)
  {
    match step
    case DoOnOpened(t) =>
      if Made(s, step).None? then s'.tracked == s.tracked
      else TracksOneMore(s.tracked, s'.tracked, Cell(s.tasks[t].py, Made(s, step).value.near), s.next)
    case DoForTask(h, t) => TracksOneMore(s.tracked, s'.tracked, Cell(s.tasks[t].py, s.handles[h].near), s.next)
    case DoInherit(h, t) => TracksOneMore(s.tracked, s'.tracked, Cell(s.tasks[t].py, s.handles[h].near), s.next)
    case DoRelease(h) =>
      TracksOneLess(s.tracked, s'.tracked, Cell(s.tasks[s.handles[h].task].py, s.handles[h].near), h)
    case DoInvalidate(h) =>
      var k := Cell(s.tasks[s.handles[h].task].py, s.handles[h].near);
      if forall g :: g in s.tracked[k] ==> g == h then Forgets(s.tracked, s'.tracked, k)
      else TracksOneLess(s.tracked, s'.tracked, k, h)
    case DoGc(t, near) => Forgets(s.tracked, s'.tracked, Cell(s.tasks[t].py, near))
    case DoCollect(h) =>
      s'.tracked.Keys == s.tracked.Keys && forall k :: k in s.tracked ==> s'.tracked[k] == s.tracked[k] - {h}
    case DoStartUnshare(t) => AlsoTracks(s, s', t, s.next)
    case DoOnUnshared(t) =>
      && s'.tracked.Keys == s.tracked.Keys
      && forall k, h :: k in s.tracked ==>
           (h in s'.tracked[k] <==>
             h in s.tracked[k] && !(k.table == s.tasks[t].phase.was && h in FdHandles(s, t)))
    case DoHangClose(t, i) =>
      var d := s.closes[s.tasks[t].pipe[i].c];
      && s'.tracked.Keys == s.tracked.Keys + {Cell(d.origin, d.near)} && s'.tracked[Cell(d.origin, d.near)] == {}
      && forall k :: k in s.tracked && k != Cell(d.origin, d.near) ==> s'.tracked[k] == s.tracked[k]
    case _ => s'.tracked == s.tracked
  }

  lemma {:induction false} UnshareStarted(s: State, t: Id)
    requires Inv(s) && CanStartUnshare(s, t)
    ensures AlsoTracks(s, StartUnshare(s, t), t, s.next)
  {
    hide Inv, Claims, CopyOf, FdHandles, FreshTable, AlsoTracks;
    NoneThere(s);
    StartedIs(s, t);
    FreshTracks(s, StartUnshare(s, t), t, s.next);
  }

  lemma {:induction false} NoneThere(s: State)
    requires Inv(s)
    ensures forall k :: k in s.tracked ==> k.table != s.next
  {
    assert FreshOk(s) && TrackedOk(s);
  }

  lemma {:induction false} StartedIs(s: State, t: Id)
    requires CanStartUnshare(s, t)
    ensures var s' := StartUnshare(s, t);
            s'.handles == s.handles && t in s'.tasks && s'.tasks[t].py == s.next
            && s'.tracked == s.tracked + FreshTable(s, t, s.next)
  {
    hide Claims, CopyOf, FdHandles, FreshTable;
  }

  lemma {:induction false} FreshTracks(s: State, s': State, t: Id, to: Id)
    requires s'.handles == s.handles && t in s'.tasks && s'.tasks[t].py == to
    requires s'.tracked == s.tracked + FreshTable(s, t, to) && forall k :: k in s.tracked ==> k.table != to
    ensures AlsoTracks(s, s', t, to)
  {
    hide FreshTable, FdHandles;
  }

  lemma {:induction false} SetsAfter(s: State, step: Step)
    requires Inv(s) && Can(s, step)
    ensures SetsChange(s, step, Apply(s, step))
  {
    hide SubmitOpen, RunOpen, RunClose, RunUnshare, OnOpened, OnClosed, OnUnshared, Share, Untrack, Invalidate, Collect,
        Gc, SubmitClose, StartUnshare, Hang, HangClose, CloneShared, CloneCopied, Inv, AlreadyKnown,
        AlsoTracks, TracksOneMore, TracksOneLess, Forgets, FdHandles;
    match step
    case DoOnOpened(t) => OpenedSets(s, t);
    case DoForTask(h, t) => MadeSets(s, t, s.handles[h].near, s.handles[h].file); SharedIs(s, h, t);
    case DoInherit(h, t) => MadeSets(s, t, s.handles[h].near, s.handles[h].file); SharedIs(s, h, t);
    case DoRelease(h) => ReleasedSets(s, h);
    case DoInvalidate(h) => InvalidatedSets(s, h);
    case DoGc(t, near) => ForgottenSets(s, t, near, false, None); GcIs(s, t, near);
    case DoCollect(h) => CollectedSets(s, h);
    case DoStartUnshare(t) => UnshareStarted(s, t);
    case DoOnUnshared(t) => UnsharedSets(s, t);
    case DoHangClose(t, i) => HungSets(s, t, i);
    case DoRunUnshare(t) => CopiedSets(s, t);
    case DoHang(t) => CopiedSets(s, t);
    case _ => OtherSets(s, step);
  }

  lemma {:induction false} MadeSets(s: State, t: Id, near: Id, file: Id)
    requires t in s.tasks
    ensures TracksOneMore(s.tracked, MakeHandle(s, t, near, file).tracked, Cell(s.tasks[t].py, near), s.next)
  {
  }

  lemma {:induction false} OpenedSets(s: State, t: Id)
    requires CanSettle(s, t)
    ensures SetsChange(s, DoOnOpened(t), OnOpened(s, t))
  {
    hide Settle, TracksOneMore;
    assert Settle(s, t).tracked == s.tracked && t in Settle(s, t).tasks && Settle(s, t).next == s.next
           && Settle(s, t).tasks[t].py == s.tasks[t].py by { SettledSets(s, t); }
    var a := s.arrivals[s.tasks[t].pipe[0].o];
    MadeSets(Settle(s, t), t, a.cell.near, a.file);
  }

  lemma {:induction false} SettledSets(s: State, t: Id)
    requires CanSettle(s, t)
    ensures var s' := Settle(s, t);
            s'.tracked == s.tracked && t in s'.tasks && s'.next == s.next && s'.tasks[t].py == s.tasks[t].py
  {
  }

  lemma {:induction false} ReleasedSets(s: State, h: Id)
    requires Current(s, h)
    ensures TracksOneLess(s.tracked, Untrack(s, h).tracked, Cell(s.tasks[s.handles[h].task].py, s.handles[h].near), h)
  {
  }

  lemma {:induction false} ForgottenSets(s: State, t: Id, near: Id, queued: bool, holder: Option<Id>)
    requires t in s.tasks
    ensures Forgets(s.tracked, Initiate(s, t, near, queued, holder).tracked, Cell(s.tasks[t].py, near))
  {
    hide Push;
  }

  lemma {:induction false} InvalidatedSets(s: State, h: Id)
    requires Current(s, h)
    ensures SetsChange(s, DoInvalidate(h), Invalidate(s, h))
  {
    hide Initiate;
    var r, t, near := Untrack(s, h), s.handles[h].task, s.handles[h].near;
    var k := Cell(s.tasks[t].py, near);
    assert LastHandle(s, h) <==> forall g :: g in s.tracked[k] ==> g == h by { LastIs(s.tracked[k], h); }
    ReleasedSets(s, h);
    ForgottenSets(r, t, near, true, Some(h));
  }

  lemma {:induction false} LastIs(hs: set<Id>, h: Id)
    ensures hs - {h} == {} <==> forall g :: g in hs ==> g == h
  {
    assert forall g :: g in hs ==> g == h || g in hs - {h};
    if forall g :: g in hs ==> g == h { assert hs - {h} == {}; }
  }

  lemma {:induction false} CollectedSets(s: State, h: Id)
    requires CanCollect(s, h)
    ensures SetsChange(s, DoCollect(h), Collect(s, h))
  {
  }

  lemma {:induction false} UnsharedSets(s: State, t: Id)
    requires CanOnUnshared(s, t)
    ensures SetsChange(s, DoOnUnshared(t), OnUnshared(s, t))
  {
    hide Take, FdHandles;
  }

  lemma {:induction false} HungSets(s: State, t: Id, i: nat)
    requires CanHangClose(s, t, i)
    ensures SetsChange(s, DoHangClose(t, i), HangClose(s, t, i))
  {
    hide Take;
  }

  lemma {:induction false} CopiedSets(s: State, t: Id)
    requires t in s.tasks
    ensures CanRunUnshare(s, t) ==> RunUnshare(s, t).tracked == s.tracked
    ensures Hang(s, t).tracked == s.tracked
  {
    hide CopyOf, Leak, Ran;
  }

  lemma {:induction false} OtherSets(s: State, step: Step)
    requires Can(s, step)
    requires step.DoSubmitOpen? || step.DoRunOpen? || step.DoRunClose? || step.DoOnClosed? || step.DoSubmitClose?
             || step.DoCloneShared? || step.DoCloneCopied?
    ensures Apply(s, step).tracked == s.tracked
  {
    hide CopyOf, Leak, Take, Push, Ran;
  }

  // ---------------------------------------------------------------- the kernel's tables

  /** Table `to` is a copy of `from`, and all other numbers are as before. */
  ghost predicate Copies(was: map<Cell, Id>, now: map<Cell, Id>, from: Id, to: Id) {
    && (forall k :: k in now <==> k in was || (k.table == to && Cell(from, k.near) in was))
    && (forall k :: k in was && k.table != to ==> now[k] == was[k])
    && (forall k :: k in now && k.table == to && Cell(from, k.near) in was ==> now[k] == was[Cell(from, k.near)])
  }

  /** What a step does to the open numbers. A lost unshare counts as run, as far as others can see. */
  ghost predicate KernelChange(s: State, step: Step, s': State)
    requires Can(s, step)
  {
    match step
    case DoRunOpen(t, near) => s'.kernel == s.kernel[Cell(KernelOf(s.tasks[t]), near) := s.next]
    case DoRunClose(t) =>
      s'.kernel == s.kernel - {Cell(KernelOf(s.tasks[t]), s.closes[NextCall(s, t).c].near)}
    case DoRunUnshare(t) => Copies(s.kernel, s'.kernel, s.tasks[t].phase.was, s.tasks[t].py)
    case DoCloneCopied(t) => Copies(s.kernel, s'.kernel, s.tasks[t].py, s.next)
    case DoStartUnshare(t) =>
      if s.tasks[t].dead then Copies(s.kernel, s'.kernel, s.tasks[t].py, s.next) else s'.kernel == s.kernel
    case DoHang(t) =>
      if s.tasks[t].phase.Unsharing? && s.tasks[t].py in s.reserved
      then Copies(s.kernel, s'.kernel, s.tasks[t].phase.was, s.tasks[t].py) else s'.kernel == s.kernel
    case _ => s'.kernel == s.kernel
  }

  /** Only calls that run change the kernel's tables; a close frees its own number in the task's table. */
  lemma {:induction false} KernelAfter(s: State, step: Step)
    requires Can(s, step)
    ensures KernelChange(s, step, Apply(s, step))
  {
    hide SubmitOpen, RunOpen, RunClose, RunUnshare, OnOpened, OnClosed, OnUnshared, Share, Untrack, Invalidate, Collect,
        Gc, SubmitClose, StartUnshare, Hang, HangClose, CloneShared, CloneCopied, Copies;
    match step
    case DoRunOpen(t, near) => RanKernel(s, step);
    case DoRunClose(t) => RanKernel(s, step);
    case DoRunUnshare(t) => UnshareKernel(s, t);
    case DoStartUnshare(t) => SentKernel(s, t);
    case DoHang(t) => HungKernel(s, t);
    case DoCloneCopied(t) => ClonedKernel(s, t);
    case DoOnOpened(t) => SettledKernel(s, t);
    case DoInvalidate(h) => SameKernel(s, step);
    case DoGc(t, near) => SameKernel(s, step);
    case _ => OtherKernel(s, step);
  }

  lemma {:induction false} RanKernel(s: State, step: Step)
    requires Can(s, step) && (step.DoRunOpen? || step.DoRunClose?)
    ensures KernelChange(s, step, Apply(s, step))
  {
    hide Ran, TableAt;
  }

  lemma {:induction false} CopiedKernel(s: State, from: Id, to: Id)
    ensures Copies(s.kernel, Copied(s, from, to).kernel, from, to)
  {
    hide CopyOf, Leak;
  }

  lemma {:induction false} UnshareKernel(s: State, t: Id)
    requires CanRunUnshare(s, t)
    ensures Copies(s.kernel, RunUnshare(s, t).kernel, s.tasks[t].phase.was, s.tasks[t].py)
  {
    hide Copied, Copies, Ran;
    CopiedKernel(s.(tasks := s.tasks[t := Ran(s.tasks[t], Unshare)]), s.tasks[t].phase.was, s.tasks[t].py);
  }

  lemma {:induction false} SentKernel(s: State, t: Id)
    requires CanStartUnshare(s, t)
    ensures KernelChange(s, DoStartUnshare(t), StartUnshare(s, t))
  {
    hide Copied, Copies, FreshTable, Claims;
    CopiedKernel(SendUnshare(s, t), s.tasks[t].py, s.next);
  }

  lemma {:induction false} HungKernel(s: State, t: Id)
    requires t in s.tasks
    ensures KernelChange(s, DoHang(t), Hang(s, t))
  {
    hide Copied, Copies;
    if s.tasks[t].phase.Unsharing? { CopiedKernel(MarkDead(s, t), s.tasks[t].phase.was, s.tasks[t].py); }
  }

  lemma {:induction false} ClonedKernel(s: State, t: Id)
    requires CanClone(s, t)
    ensures Copies(s.kernel, CloneCopied(s, t).kernel, s.tasks[t].py, s.next)
  {
    hide CopyOf, Leak;
  }

  lemma {:induction false} SettledKernel(s: State, t: Id)
    requires CanSettle(s, t)
    ensures OnOpened(s, t).kernel == s.kernel
  {
    hide Take, AlreadyKnown;
  }

  lemma {:induction false} SameKernel(s: State, step: Step)
    requires Can(s, step) && (step.DoInvalidate? || step.DoGc?)
    ensures Apply(s, step).kernel == s.kernel
  {
    hide Push, LastHandle;
  }

  lemma {:induction false} OtherKernel(s: State, step: Step)
    requires Can(s, step)
    requires step.DoSubmitOpen? || step.DoOnClosed? || step.DoOnUnshared? || step.DoForTask? || step.DoInherit?
             || step.DoRelease? || step.DoCollect? || step.DoSubmitClose? || step.DoHangClose? || step.DoCloneShared?
    ensures Apply(s, step).kernel == s.kernel
  {
    hide Take, Push, FdHandles;
  }
}
