/** What every step of `FdTables` keeps. */
module FdInvariant {
  import opened Prelude
  import opened FdTables

  /** A table is in the kernel, or reserved by an unshare that has not run; every open number
      has an owner, and what the program tracks is owned as tracked. */
  ghost predicate TablesOk(s: State) {
    && (forall f :: f in s.reserved ==> f !in s.tables && s.reserved[f] in s.tables)
    && (forall k :: k in s.kernel ==> k.table in s.tables && k in s.owner)
    && (forall k :: k in s.owner ==> k.table in s.tables || k.table in s.reserved)
    && (forall k :: k in s.owner && k.table in s.tables ==> k in s.kernel)
    && (forall k :: k in s.owner && k.table in s.reserved ==> Cell(s.reserved[k.table], k.near) in s.kernel)
    && (forall k :: k in s.tracked ==> k in s.owner && s.owner[k] == Tracked)
  }

  ghost predicate TaskOk(s: State, t: Task) {
    && t.done <= |t.pipe|
    && match t.phase
       case Stable => t.py in s.tables
       case Unsharing(was, pos) =>
         && pos < |t.pipe| && was in s.tables && was != t.py
         && (t.done <= pos ==> (t.py in s.reserved && s.reserved[t.py] == was) || (t.dead && t.py in s.tables))
         && (pos < t.done ==> t.py in s.tables)
  }

  /** A reserved table belongs to one task. */
  ghost predicate TasksOk(s: State) {
    && (forall t :: t in s.tasks ==> TaskOk(s, s.tasks[t]))
    && (forall t, u :: t in s.tasks && u in s.tasks && t != u && s.tasks[t].py in s.reserved ==>
         s.tasks[u].py != s.tasks[t].py)
  }

  /** What the entry at position `i` of task `id`'s pipe refers to. */
  ghost predicate EntryOk(s: State, id: Id, t: Task, i: nat)
    requires i < |t.pipe|
  {
    match t.pipe[i]
    case Open => t.done <= i
    case Opened(o) => i < t.done && o in s.arrivals && s.arrivals[o].task == id
        && s.arrivals[o].cell.table == TableAt(t, i)
    case Closing(c) => t.done <= i && c in s.closes && s.closes[c].task == id && s.closes[c].queued
                       && s.closes[c].dest == TableAt(t, i)
    case Closed(_, _) => i < t.done
    case Unshare => t.phase.Unsharing? && t.phase.pos == i
  }

  ghost predicate PipeOk(s: State, id: Id, t: Task) {
    && t.done <= |t.pipe|
    && (forall i :: 0 <= i < |t.pipe| ==> EntryOk(s, id, t, i))
    && (t.phase.Unsharing? ==> t.phase.pos < |t.pipe| && t.pipe[t.phase.pos] == Unshare)
    && (forall i, j :: 0 <= i < j < |t.pipe| && (t.pipe[i].Opened? || t.pipe[i].Closing?) ==> t.pipe[i] != t.pipe[j])
  }

  ghost predicate PipesOk(s: State) {
    forall t :: t in s.tasks ==> PipeOk(s, t, s.tasks[t])
  }

  /** A number being closed is claimed in the table where the close runs, and in the table
      to which it returns if it cannot run. */
  ghost predicate CloseOk(s: State, c: Id, d: Close) {
    && d.task in s.tasks
    && Cell(d.dest, d.near) in s.owner && s.owner[Cell(d.dest, d.near)] == ClosedBy(c)
    && Cell(d.origin, d.near) in s.owner && s.owner[Cell(d.origin, d.near)] == ClosedBy(c)
    && (!d.queued ==> d.dest == s.tasks[d.task].py)
    && (d.dest in s.reserved ==> d.dest == s.tasks[d.task].py)
    && (d.origin in s.reserved ==> d.origin == d.dest)
  }

  /** The close can still run. */
  ghost predicate CanStillRun(s: State, c: Id) {
    c in s.closes && s.closes[c].task in s.tasks && !s.tasks[s.closes[c].task].dead
  }

  /** No close runs in a table on a number that an unshare still has to copy from it. */
  ghost predicate ClosesOk(s: State) {
    && (forall c :: c in s.closes ==> CloseOk(s, c, s.closes[c]))
    && (forall c, f :: CanStillRun(s, c) && f in s.reserved && s.reserved[f] == s.closes[c].dest
          ==> Cell(f, s.closes[c].near) !in s.owner)
  }

  ghost predicate ArrivalsOk(s: State) {
    forall o :: o in s.arrivals ==>
      var a := s.arrivals[o];
      && a.cell in s.kernel && s.kernel[a.cell] == a.file && a.cell in s.owner && s.owner[a.cell] == ArrivesAs(o)
  }

  /** The open file behind a number of a table. */
  ghost predicate Names(s: State, k: Cell, file: Id) {
    Back(s, k) in s.kernel && s.kernel[Back(s, k)] == file
  }

  ghost predicate TrackedOk(s: State) {
    forall k, h :: k in s.tracked && h in s.tracked[k] ==>
      h in s.handles && s.handles[h].near == k.near && Names(s, k, s.handles[h].file)
  }

  ghost predicate Holds(s: State, table: Id, h: Id)
    requires h in s.handles
  {
    var k := Cell(table, s.handles[h].near);
    k in s.tracked && h in s.tracked[k]
  }

  /** A valid handle is in its task's table, and in the old table until an unshare is finished. */
  ghost predicate HandleOk(s: State, h: Id)
    requires h in s.handles
  {
    && s.handles[h].task in s.tasks
    && Holds(s, s.tasks[s.handles[h].task].py, h)
    && (s.tasks[s.handles[h].task].phase.Unsharing? ==> Holds(s, s.tasks[s.handles[h].task].phase.was, h))
  }

  ghost predicate HandlesOk(s: State) {
    forall h :: h in s.handles && s.handles[h].valid ==> HandleOk(s, h)
  }

  ghost predicate LegacyOk(s: State) {
    forall l :: l in s.legacy ==>
      && l.handle in s.handles && l.table in s.tables
      && var k := Cell(l.table, s.handles[l.handle].near);
         && k in s.kernel && s.kernel[k] == s.handles[l.handle].file
         && k in s.owner && (s.owner[k].Tracked? || s.owner[k].Leaked?)
  }

  ghost predicate FreshOk(s: State) {
    && (forall t :: t in s.tasks ==> t < s.next)
    && (forall t :: t in s.tables || t in s.reserved ==> t < s.next)
    && (forall h :: h in s.handles ==> h < s.next)
    && (forall c :: c in s.closes ==> c < s.next)
    && (forall o :: o in s.arrivals ==> o < s.next)
  }

  ghost predicate Inv(s: State) {
    && TablesOk(s) && TasksOk(s) && PipesOk(s) && ClosesOk(s) && ArrivalsOk(s)
    && TrackedOk(s) && HandlesOk(s) && LegacyOk(s) && FreshOk(s)
  }

  /** A close of this number may start in this table: no unshare out of the table, still to be
      run, tracks the number or has a close of it waiting in the copy. */
  ghost predicate CloseSafe(s: State, table: Id, near: Id) {
    forall f :: f in s.reserved && s.reserved[f] == table ==> Cell(f, near) !in s.owner
  }

  ghost predicate CanMake(s: State, t: Id, near: Id, file: Id) {
    && t in s.tasks && s.tasks[t].phase.Stable?
    && var k := Cell(s.tasks[t].py, near);
       Names(s, k, file) && k in s.owner && (s.owner[k].Tracked? || s.owner[k].Leaked?)
  }

  ghost predicate CanInitiate(s: State, t: Id, near: Id) {
    CanGc(s, t, near) && (s.tasks[t].dead || CloseSafe(s, s.tasks[t].py, near))
  }

  // ---------------------------------------------------------------- frames

  /** The parts a step on pipes alone leaves as they are. */
  ghost predicate SameTables(s: State, s': State) {
    && s'.tables == s.tables && s'.reserved == s.reserved && s'.kernel == s.kernel && s'.owner == s.owner
    && s'.tracked == s.tracked && s'.handles == s.handles && s'.legacy == s.legacy && s'.arrivals == s.arrivals
  }

  lemma {:induction false} TablesFrame(s: State, s': State)
    requires SameTables(s, s') && TablesOk(s)
    ensures TablesOk(s')
  {
  }

  lemma {:induction false} ArrivalsFrame(s: State, s': State)
    requires SameTables(s, s') && ArrivalsOk(s)
    ensures ArrivalsOk(s')
  {
  }

  lemma {:induction false} TrackedFrame(s: State, s': State)
    requires SameTables(s, s') && TrackedOk(s)
    ensures TrackedOk(s')
  {
  }

  lemma {:induction false} LegacyFrame(s: State, s': State)
    requires SameTables(s, s') && LegacyOk(s)
    ensures LegacyOk(s')
  {
  }

  /** Tasks keep their table and are not further into an unshare. */
  ghost predicate SameViews(s: State, s': State) {
    forall t :: t in s.tasks ==>
      && t in s'.tasks && s'.tasks[t].py == s.tasks[t].py && (s.tasks[t].dead ==> s'.tasks[t].dead)
      && (s'.tasks[t].phase.Unsharing? ==> s.tasks[t].phase.Unsharing? && s'.tasks[t].phase.was == s.tasks[t].phase.was)
  }

  lemma {:induction false} HandlesFrame(s: State, s': State)
    requires HandlesOk(s) && SameViews(s, s') && s'.handles == s.handles && s'.tracked == s.tracked
    ensures HandlesOk(s')
  {
    forall h | h in s'.handles && s'.handles[h].valid ensures HandleOk(s', h) {
      assert HandleOk(s, h);
    }
  }

  lemma {:induction false} ClosesFrame(s: State, s': State)
    requires ClosesOk(s) && SameViews(s, s') && s'.closes == s.closes && s'.reserved == s.reserved
             && s'.owner == s.owner
    ensures ClosesOk(s')
  {
    forall c | c in s'.closes ensures CloseOk(s', c, s'.closes[c]) {
      assert CloseOk(s, c, s.closes[c]);
    }
  }

  lemma {:induction false} PipeFrame(s: State, s': State, id: Id, t: Task)
    requires PipeOk(s, id, t)
    requires forall c :: c in s.closes && s.closes[c].task == id && s.closes[c].queued ==>
               c in s'.closes && s'.closes[c] == s.closes[c]
    requires forall o :: o in s.arrivals && s.arrivals[o].task == id ==>
               o in s'.arrivals && s'.arrivals[o] == s.arrivals[o]
    ensures PipeOk(s', id, t)
  {
    forall i | 0 <= i < |t.pipe| ensures EntryOk(s', id, t, i) {
      assert EntryOk(s, id, t, i);
    }
  }

  // ---------------------------------------------------------------- one task's pipe

  lemma {:induction false} PushPipe(s: State, id: Id, t: Task, e: Entry)
    requires PipeOk(s, id, t) && EntryOk(s, id, Push(t, e), |t.pipe|) && e != Unshare
    requires e !in t.pipe || e == Open
    ensures PipeOk(s, id, Push(t, e))
  {
    var u := Push(t, e);
    forall i | 0 <= i < |u.pipe| ensures EntryOk(s, id, u, i) {
      if i < |t.pipe| {
        assert EntryOk(s, id, t, i);
      }
    }
  }

  lemma {:induction false} RanPipe(s: State, s': State, id: Id, t: Task, e: Entry)
    requires PipeOk(s, id, t) && t.done < |t.pipe| && EntryOk(s', id, Ran(t, e), t.done)
    requires e == Unshare <==> t.pipe[t.done] == Unshare
    requires e.Opened? ==> e !in t.pipe
    requires !e.Closing?
    requires forall i :: 0 <= i < |t.pipe| && i != t.done && t.pipe[i].Closing? ==>
               t.pipe[i].c in s'.closes && t.pipe[i].c in s.closes && s'.closes[t.pipe[i].c] == s.closes[t.pipe[i].c]
    requires forall o :: o in s.arrivals && s.arrivals[o].task == id ==>
               o in s'.arrivals && s'.arrivals[o] == s.arrivals[o]
    ensures PipeOk(s', id, Ran(t, e))
  {
    var u := Ran(t, e);
    forall i | 0 <= i < |u.pipe| ensures EntryOk(s', id, u, i) {
      assert EntryOk(s, id, t, i);
    }
    forall i, j | 0 <= i < j < |u.pipe| && (u.pipe[i].Opened? || u.pipe[i].Closing?) ensures u.pipe[i] != u.pipe[j] {
      assert t.pipe[i] in t.pipe && t.pipe[j] in t.pipe;
    }
  }

  /** The entry behind position `i` once entry `at` is gone. */
  function Behind(i: nat, at: nat): nat { if i < at then i else i + 1 }

  lemma {:induction false} TakeLooksBehind(t: Task, at: nat)
    requires at < |t.pipe|
    ensures |Take(t, at).pipe| == |t.pipe| - 1
    ensures forall i :: 0 <= i < |t.pipe| - 1 ==> Take(t, at).pipe[i] == t.pipe[Behind(i, at)]
    ensures t.phase.Unsharing? && t.phase.pos != at ==> Behind(Take(t, at).phase.pos, at) == t.phase.pos
  {
  }

  lemma {:induction false} TakeEntry(s: State, s': State, id: Id, t: Task, at: nat, i: nat)
    requires at < |t.pipe| && i < |t.pipe| - 1 && t.done <= |t.pipe|
    requires EntryOk(s, id, t, Behind(i, at)) && EntryOk(s, id, t, at)
    requires t.phase.Unsharing? ==> t.phase.pos < |t.pipe| && t.pipe[t.phase.pos] == Unshare
    requires t.pipe[at] == Unshare ==> at == 0 && t.done > 0
    requires var e := t.pipe[Behind(i, at)];
             && (e.Closing? ==> e.c in s'.closes && e.c in s.closes && s'.closes[e.c] == s.closes[e.c])
             && (e.Opened? ==> e.o in s'.arrivals && e.o in s.arrivals && s'.arrivals[e.o] == s.arrivals[e.o])
    ensures |Take(t, at).pipe| == |t.pipe| - 1 && EntryOk(s', id, Take(t, at), i)
  {
    TakeLooksBehind(t, at);
  }

  lemma {:induction false} TakePipe(s: State, s': State, id: Id, t: Task, at: nat)
    requires PipeOk(s, id, t) && at < |t.pipe|
    requires t.pipe[at] == Unshare ==> at == 0 && t.done > 0
    requires forall i :: 0 <= i < |t.pipe| && i != at && t.pipe[i].Closing? ==>
               t.pipe[i].c in s'.closes && t.pipe[i].c in s.closes && s'.closes[t.pipe[i].c] == s.closes[t.pipe[i].c]
    requires forall i :: 0 <= i < |t.pipe| && i != at && t.pipe[i].Opened? ==>
               t.pipe[i].o in s'.arrivals && t.pipe[i].o in s.arrivals
                   && s'.arrivals[t.pipe[i].o] == s.arrivals[t.pipe[i].o]
    ensures PipeOk(s', id, Take(t, at))
  {
    var u := Take(t, at);
    assert EntryOk(s, id, t, at);
    TakeLooksBehind(t, at);
    forall i | 0 <= i < |u.pipe| ensures EntryOk(s', id, u, i) {
      TakeEntry(s, s', id, t, at, i);
    }
  }

  // ---------------------------------------------------------------- RunOpen

  /** The call at hand is not the task's unshare. */
  ghost predicate NotUnshare(s: State, t: Id) {
    t in s.tasks && (s.tasks[t].phase.Unsharing? ==> s.tasks[t].phase.pos != s.tasks[t].done)
  }

  /** The cell an open fills: free, and in a kernel table. */
  ghost predicate FreeCell(s: State, k: Cell) { k.table in s.tables && k !in s.kernel }

  lemma {:induction false} RunOpenTables(s: State, t: Id, near: Id)
    requires TablesOk(s)
    requires CanRunOpen(s, t, near) && NotUnshare(s, t)
    requires FreeCell(s, Cell(KernelOf(s.tasks[t]), near))
    ensures TablesOk(RunOpen(s, t, near))
  {
  }

  lemma {:induction false} RunOpenArrivals(s: State, t: Id, near: Id)
    requires ArrivalsOk(s)
    requires CanRunOpen(s, t, near) && NotUnshare(s, t)
    requires FreeCell(s, Cell(KernelOf(s.tasks[t]), near))
    ensures ArrivalsOk(RunOpen(s, t, near))
  {
  }

  lemma {:induction false} RunOpenTracked(s: State, t: Id, near: Id)
    requires TrackedOk(s) && TablesOk(s)
    requires CanRunOpen(s, t, near) && NotUnshare(s, t)
    requires FreeCell(s, Cell(KernelOf(s.tasks[t]), near))
    ensures TrackedOk(RunOpen(s, t, near))
  {
  }

  lemma {:induction false} RunOpenLegacy(s: State, t: Id, near: Id)
    requires LegacyOk(s)
    requires CanRunOpen(s, t, near) && NotUnshare(s, t)
    requires FreeCell(s, Cell(KernelOf(s.tasks[t]), near))
    ensures LegacyOk(RunOpen(s, t, near))
  {
  }

  lemma {:induction false} RunOpenCloses(s: State, t: Id, near: Id)
    requires ClosesOk(s) && TablesOk(s)
    requires CanRunOpen(s, t, near) && NotUnshare(s, t)
    requires FreeCell(s, Cell(KernelOf(s.tasks[t]), near))
    ensures ClosesOk(RunOpen(s, t, near))
  {
  }

  lemma {:induction false} RunOpenHandles(s: State, t: Id, near: Id)
    requires HandlesOk(s)
    requires CanRunOpen(s, t, near) && NotUnshare(s, t)
    requires FreeCell(s, Cell(KernelOf(s.tasks[t]), near))
    ensures HandlesOk(RunOpen(s, t, near))
  {
  }

  lemma {:induction false} RunOpenTasks(s: State, t: Id, near: Id)
    requires TasksOk(s)
    requires CanRunOpen(s, t, near) && NotUnshare(s, t)
    requires FreeCell(s, Cell(KernelOf(s.tasks[t]), near))
    ensures TasksOk(RunOpen(s, t, near))
  {
  }

  // ---------------------------------------------------------------- RunClose

  /** The close at hand owns the cell it runs on, and no unshare still has to copy it. */
  ghost predicate Closable(s: State, t: Id)
    requires CanRunClose(s, t)
  {
    var c := NextCall(s, t).c;
    var k := Cell(KernelOf(s.tasks[t]), s.closes[c].near);
    k.table in s.tables && k in s.owner && s.owner[k] == ClosedBy(c) && CloseSafe(s, k.table, k.near)
  }

  lemma {:induction false} RunCloseTables(s: State, t: Id)
    requires TablesOk(s)
    requires CanRunClose(s, t) && NotUnshare(s, t) && Closable(s, t)
    ensures TablesOk(RunClose(s, t))
  {
  }

  lemma {:induction false} RunCloseArrivals(s: State, t: Id)
    requires ArrivalsOk(s)
    requires CanRunClose(s, t) && NotUnshare(s, t) && Closable(s, t)
    ensures ArrivalsOk(RunClose(s, t))
  {
  }

  lemma {:induction false} RunCloseTracked(s: State, t: Id)
    requires TrackedOk(s) && TablesOk(s)
    requires CanRunClose(s, t) && NotUnshare(s, t) && Closable(s, t)
    ensures TrackedOk(RunClose(s, t))
  {
  }

  lemma {:induction false} RunCloseLegacy(s: State, t: Id)
    requires LegacyOk(s)
    requires CanRunClose(s, t) && NotUnshare(s, t) && Closable(s, t)
    ensures LegacyOk(RunClose(s, t))
  {
  }

  lemma {:induction false} RunCloseCloses(s: State, t: Id)
    requires ClosesOk(s)
    requires CanRunClose(s, t) && NotUnshare(s, t) && Closable(s, t)
    ensures ClosesOk(RunClose(s, t))
  {
  }

  lemma {:induction false} RunCloseHandles(s: State, t: Id)
    requires HandlesOk(s)
    requires CanRunClose(s, t) && NotUnshare(s, t) && Closable(s, t)
    ensures HandlesOk(RunClose(s, t))
  {
  }

  lemma {:induction false} RunCloseTasks(s: State, t: Id)
    requires TasksOk(s)
    requires CanRunClose(s, t) && NotUnshare(s, t) && Closable(s, t)
    ensures TasksOk(RunClose(s, t))
  {
  }

  // ---------------------------------------------------------------- RunUnshare

  ghost predicate Copyable(s: State, t: Id)
    requires CanRunUnshare(s, t)
  {
    var task := s.tasks[t];
    task.py in s.reserved && s.reserved[task.py] == task.phase.was && task.phase.pos == task.done
  }

  lemma {:induction false} CopiedTables(s: State, from: Id, to: Id)
    requires TablesOk(s) && to in s.reserved && s.reserved[to] == from
    ensures TablesOk(Copied(s, from, to))
  {
    var s' := Copied(s, from, to);
    forall k | k in s'.kernel ensures k.table in s'.tables && k in s'.owner {
      assert k in s.kernel || (k.table == to && Cell(from, k.near) in s.kernel);
    }
    forall k | k in s'.owner && k.table in s'.tables ensures k in s'.kernel {
      if k.table == to { assert Cell(from, k.near) in s.kernel; }
    }
  }

  lemma {:induction false} CopiedArrivals(s: State, from: Id, to: Id)
    requires ArrivalsOk(s) && TablesOk(s) && to in s.reserved && s.reserved[to] == from
    ensures ArrivalsOk(Copied(s, from, to))
  {
  }

  lemma {:induction false} CopiedTracked(s: State, from: Id, to: Id)
    requires TrackedOk(s) && TablesOk(s) && to in s.reserved && s.reserved[to] == from
    ensures TrackedOk(Copied(s, from, to))
  {
    hide CopyOf;
  }

  lemma {:induction false} CopiedLegacy(s: State, from: Id, to: Id)
    requires LegacyOk(s) && TablesOk(s) && to in s.reserved && s.reserved[to] == from
    ensures LegacyOk(Copied(s, from, to))
  {
  }

  lemma {:induction false} CopiedCloses(s: State, from: Id, to: Id)
    requires ClosesOk(s) && TablesOk(s) && to in s.reserved && s.reserved[to] == from
    ensures ClosesOk(Copied(s, from, to))
  {
  }

  lemma {:induction false} AbandonTasks(s: State, t: Id)
    requires TasksOk(s) && TablesOk(s) && CanAbandon(s, t) && s.tasks[t].dead
    ensures TasksOk(Abandon(s, t))
  {
    hide CopyOf;
    var s' := Abandon(s, t);
    forall u | u in s'.tasks ensures TaskOk(s', s'.tasks[u]) {
      assert TaskOk(s, s.tasks[u]);
    }
  }

  lemma {:induction false} RunUnshareTasks(s: State, t: Id)
    requires TasksOk(s) && TablesOk(s)
    requires CanRunUnshare(s, t) && Copyable(s, t)
    ensures TasksOk(RunUnshare(s, t))
  {
  }

  // ---------------------------------------------------------------- the program's steps

  /** The result at hand is an open's, and its cell waits for it. */
  ghost predicate Settleable(s: State, t: Id)
    requires CanSettle(s, t)
  {
    var o := s.tasks[t].pipe[0].o;
    var k := s.arrivals[o].cell;
    && k in s.owner && s.owner[k] == ArrivesAs(o) && (s.tasks[t].phase.Unsharing? ==> s.tasks[t].phase.pos != 0)
  }

  lemma {:induction false} SettleTables(s: State, t: Id)
    requires TablesOk(s)
    requires CanSettle(s, t) && Settleable(s, t)
    ensures TablesOk(Settle(s, t))
  {
  }

  lemma {:induction false} SettleArrivals(s: State, t: Id)
    requires ArrivalsOk(s)
    requires CanSettle(s, t) && Settleable(s, t)
    ensures ArrivalsOk(Settle(s, t))
  {
  }

  lemma {:induction false} SettleLegacy(s: State, t: Id)
    requires LegacyOk(s)
    requires CanSettle(s, t) && Settleable(s, t)
    ensures LegacyOk(Settle(s, t))
  {
  }

  lemma {:induction false} SettleCloses(s: State, t: Id)
    requires ClosesOk(s)
    requires CanSettle(s, t) && Settleable(s, t)
    ensures ClosesOk(Settle(s, t))
  {
  }

  lemma {:induction false} OnUnsharedTables(s: State, t: Id)
    requires TablesOk(s)
    requires CanOnUnshared(s, t) && s.tasks[t].phase.pos == 0 && TaskOk(s, s.tasks[t])
    ensures TablesOk(OnUnshared(s, t))
  {
  }

  lemma {:induction false} OnUnsharedTracked(s: State, t: Id)
    requires TrackedOk(s)
    requires CanOnUnshared(s, t) && s.tasks[t].phase.pos == 0 && TaskOk(s, s.tasks[t])
    ensures TrackedOk(OnUnshared(s, t))
  {
  }

  lemma {:induction false} OnUnsharedHandles(s: State, t: Id)
    requires HandlesOk(s)
    requires CanOnUnshared(s, t) && s.tasks[t].phase.pos == 0 && TaskOk(s, s.tasks[t])
    ensures HandlesOk(OnUnshared(s, t))
  {
  }

  lemma {:induction false} OnUnsharedTasks(s: State, t: Id)
    requires TasksOk(s)
    requires CanOnUnshared(s, t) && s.tasks[t].phase.pos == 0 && TaskOk(s, s.tasks[t])
    ensures TasksOk(OnUnshared(s, t))
  {
  }

  lemma {:induction false} UntrackTables(s: State, h: Id)
    requires TablesOk(s)
    requires Current(s, h)
    ensures TablesOk(Untrack(s, h))
  {
  }

  lemma {:induction false} UntrackTracked(s: State, h: Id)
    requires TrackedOk(s)
    requires Current(s, h)
    ensures TrackedOk(Untrack(s, h))
  {
  }

  lemma {:induction false} UntrackHandles(s: State, h: Id)
    requires HandlesOk(s)
    requires Current(s, h)
    ensures HandlesOk(Untrack(s, h))
  {
  }

  lemma {:induction false} UntrackLegacy(s: State, h: Id)
    requires LegacyOk(s)
    requires Current(s, h)
    ensures LegacyOk(Untrack(s, h))
  {
  }

  lemma {:induction false} CollectTables(s: State, h: Id)
    requires TablesOk(s)
    requires CanCollect(s, h)
    ensures TablesOk(Collect(s, h))
  {
  }

  lemma {:induction false} CollectTracked(s: State, h: Id)
    requires TrackedOk(s)
    requires CanCollect(s, h)
    ensures TrackedOk(Collect(s, h))
  {
  }

  lemma {:induction false} CollectHandles(s: State, h: Id)
    requires HandlesOk(s)
    requires CanCollect(s, h)
    ensures HandlesOk(Collect(s, h))
  {
  }

  lemma {:induction false} CollectLegacy(s: State, h: Id)
    requires LegacyOk(s)
    requires CanCollect(s, h)
    ensures LegacyOk(Collect(s, h))
  {
  }

  lemma {:induction false} MakeHandleTables(s: State, t: Id, near: Id, file: Id)
    requires TablesOk(s)
    requires CanMake(s, t, near, file) && s.next !in s.handles
    ensures TablesOk(MakeHandle(s, t, near, file))
  {
  }

  lemma {:induction false} MakeHandleArrivals(s: State, t: Id, near: Id, file: Id)
    requires ArrivalsOk(s)
    requires CanMake(s, t, near, file) && s.next !in s.handles
    ensures ArrivalsOk(MakeHandle(s, t, near, file))
  {
  }

  lemma {:induction false} MakeHandleTracked(s: State, t: Id, near: Id, file: Id)
    requires TrackedOk(s)
    requires CanMake(s, t, near, file) && s.next !in s.handles
    ensures TrackedOk(MakeHandle(s, t, near, file))
  {
  }

  lemma {:induction false} MakeHandleHandles(s: State, t: Id, near: Id, file: Id)
    requires HandlesOk(s)
    requires CanMake(s, t, near, file) && s.next !in s.handles
    ensures HandlesOk(MakeHandle(s, t, near, file))
  {
  }

  lemma {:induction false} MakeHandleLegacy(s: State, t: Id, near: Id, file: Id)
    requires LegacyOk(s)
    requires CanMake(s, t, near, file) && s.next !in s.handles
    ensures LegacyOk(MakeHandle(s, t, near, file))
  {
  }

  lemma {:induction false} MakeHandleCloses(s: State, t: Id, near: Id, file: Id)
    requires ClosesOk(s)
    requires CanMake(s, t, near, file) && s.next !in s.handles
    ensures ClosesOk(MakeHandle(s, t, near, file))
  {
  }

  lemma {:induction false} InitiateTables(s: State, t: Id, near: Id, queued: bool, holder: Option<Id>)
    requires TablesOk(s)
    requires CanInitiate(s, t, near) && s.next !in s.closes
    ensures TablesOk(Initiate(s, t, near, queued, holder))
  {
  }

  lemma {:induction false} InitiateArrivals(s: State, t: Id, near: Id, queued: bool, holder: Option<Id>)
    requires ArrivalsOk(s) && TablesOk(s)
    requires CanInitiate(s, t, near) && s.next !in s.closes
    ensures ArrivalsOk(Initiate(s, t, near, queued, holder))
  {
  }

  lemma {:induction false} InitiateTracked(s: State, t: Id, near: Id, queued: bool, holder: Option<Id>)
    requires TrackedOk(s)
    requires CanInitiate(s, t, near) && s.next !in s.closes
    ensures TrackedOk(Initiate(s, t, near, queued, holder))
  {
  }

  lemma {:induction false} InitiateHandles(s: State, t: Id, near: Id, queued: bool, holder: Option<Id>)
    requires HandlesOk(s)
    requires CanInitiate(s, t, near) && s.next !in s.closes
    ensures HandlesOk(Initiate(s, t, near, queued, holder))
  {
  }

  lemma {:induction false} InitiateLegacy(s: State, t: Id, near: Id, queued: bool, holder: Option<Id>)
    requires LegacyOk(s)
    requires CanInitiate(s, t, near) && s.next !in s.closes
    ensures LegacyOk(Initiate(s, t, near, queued, holder))
  {
  }

  lemma {:induction false} InitiateCloses(s: State, t: Id, near: Id, queued: bool, holder: Option<Id>)
    requires ClosesOk(s) && TablesOk(s)
    requires CanInitiate(s, t, near) && s.next !in s.closes
    ensures ClosesOk(Initiate(s, t, near, queued, holder))
  {
    var s' := Initiate(s, t, near, queued, holder);
    forall c | c in s'.closes ensures CloseOk(s', c, s'.closes[c]) {
      if c in s.closes { assert CloseOk(s, c, s.closes[c]); }
    }
  }

  /** A close that cannot run any more still owns its cells. */
  ghost predicate Restorable(s: State, t: Id, i: nat)
    requires CanHangClose(s, t, i)
  {
    var c := s.tasks[t].pipe[i].c;
    CloseOk(s, c, s.closes[c]) && (s.tasks[t].phase.Unsharing? ==> s.tasks[t].phase.pos != i)
  }

  lemma {:induction false} HangCloseTables(s: State, t: Id, i: nat)
    requires TablesOk(s)
    requires CanHangClose(s, t, i) && Restorable(s, t, i)
    ensures TablesOk(HangClose(s, t, i))
  {
  }

  lemma {:induction false} HangCloseArrivals(s: State, t: Id, i: nat)
    requires ArrivalsOk(s)
    requires CanHangClose(s, t, i) && Restorable(s, t, i)
    ensures ArrivalsOk(HangClose(s, t, i))
  {
  }

  lemma {:induction false} HangCloseTracked(s: State, t: Id, i: nat)
    requires TrackedOk(s)
    requires CanHangClose(s, t, i) && Restorable(s, t, i)
    ensures TrackedOk(HangClose(s, t, i))
  {
  }

  lemma {:induction false} HangCloseHandles(s: State, t: Id, i: nat)
    requires HandlesOk(s) && TablesOk(s)
    requires CanHangClose(s, t, i) && Restorable(s, t, i)
    ensures HandlesOk(HangClose(s, t, i))
  {
  }

  lemma {:induction false} HangCloseLegacy(s: State, t: Id, i: nat)
    requires LegacyOk(s)
    requires CanHangClose(s, t, i) && Restorable(s, t, i)
    ensures LegacyOk(HangClose(s, t, i))
  {
  }

  lemma {:induction false} HangCloseCloses(s: State, t: Id, i: nat)
    requires ClosesOk(s)
    requires CanHangClose(s, t, i) && Restorable(s, t, i)
    ensures ClosesOk(HangClose(s, t, i))
  {
  }

  lemma {:induction false} HangCloseTasks(s: State, t: Id, i: nat)
    requires TasksOk(s)
    requires CanHangClose(s, t, i) && Restorable(s, t, i)
    ensures TasksOk(HangClose(s, t, i))
  {
  }

  lemma {:induction false} CloneCopiedTables(s: State, t: Id)
    requires TablesOk(s)
    requires CanStartUnshare(s, t) && s.next !in s.tables && s.next !in s.reserved && s.next !in s.tasks
             && s.tasks[t].py in s.tables
    ensures TablesOk(CloneCopied(s, t))
  {
  }

  lemma {:induction false} CloneCopiedArrivals(s: State, t: Id)
    requires ArrivalsOk(s) && TablesOk(s)
    requires CanStartUnshare(s, t) && s.next !in s.tables && s.next !in s.reserved && s.next !in s.tasks
             && s.tasks[t].py in s.tables
    ensures ArrivalsOk(CloneCopied(s, t))
  {
    hide CopyOf;
  }

  lemma {:induction false} CloneCopiedTracked(s: State, t: Id)
    requires TrackedOk(s) && TablesOk(s)
    requires CanStartUnshare(s, t) && s.next !in s.tables && s.next !in s.reserved && s.next !in s.tasks
             && s.tasks[t].py in s.tables
    ensures TrackedOk(CloneCopied(s, t))
  {
    hide CopyOf;
  }

  lemma {:induction false} CloneCopiedHandles(s: State, t: Id)
    requires HandlesOk(s)
    requires CanStartUnshare(s, t) && s.next !in s.tables && s.next !in s.reserved && s.next !in s.tasks
             && s.tasks[t].py in s.tables
    ensures HandlesOk(CloneCopied(s, t))
  {
  }

  lemma {:induction false} CloneCopiedLegacy(s: State, t: Id)
    requires LegacyOk(s) && TablesOk(s) && TrackedOk(s)
    requires CanStartUnshare(s, t) && s.next !in s.tables && s.next !in s.reserved && s.next !in s.tasks
             && s.tasks[t].py in s.tables
    ensures LegacyOk(CloneCopied(s, t))
  {
    hide CopyOf;
    var s', from, to := CloneCopied(s, t), s.tasks[t].py, s.next;
    forall l | l in s'.legacy
      ensures l.handle in s'.handles && l.table in s'.tables
      ensures var k := Cell(l.table, s'.handles[l.handle].near);
              && k in s'.kernel && s'.kernel[k] == s'.handles[l.handle].file
              && k in s'.owner && (s'.owner[k].Tracked? || s'.owner[k].Leaked?)
    {
      if l in s.legacy {
        assert l.table != to;
      } else {
        assert l.table == to;
        if Legacy(from, l.handle) !in s.legacy {
          var k :| k in s.tracked && k.table == from && l.handle in s.tracked[k];
          assert Names(s, k, s.handles[l.handle].file) && k in s.kernel;
        }
        assert Cell(from, s.handles[l.handle].near) in s.kernel;
      }
    }
  }

  lemma {:induction false} CloneCopiedCloses(s: State, t: Id)
    requires ClosesOk(s) && TablesOk(s)
    requires CanStartUnshare(s, t) && s.next !in s.tables && s.next !in s.reserved && s.next !in s.tasks
             && s.tasks[t].py in s.tables
    ensures ClosesOk(CloneCopied(s, t))
  {
    hide CopyOf;
  }

  lemma {:induction false} CloneCopiedTasks(s: State, t: Id)
    requires TasksOk(s)
    requires CanStartUnshare(s, t) && s.next !in s.tables && s.next !in s.reserved && s.next !in s.tasks
             && s.tasks[t].py in s.tables
    ensures TasksOk(CloneCopied(s, t))
  {
  }

  /** Numbers of the fresh table are tracked in the old one, by the same handles. */
  lemma {:induction false} FreshHandle(s: State, t: Id, k: Cell)
    requires HandlesOk(s) && t in s.tasks && k in FreshTable(s, t, s.next)
    ensures var b := Cell(s.tasks[t].py, k.near);
            b in s.tracked && FreshTable(s, t, s.next)[k] <= s.tracked[b]
    ensures TablesOk(s) ==>
              Claimed(s, t, Cell(s.tasks[t].py, k.near)) && s.owner[Cell(s.tasks[t].py, k.near)] == Tracked
    ensures forall h :: h in FreshTable(s, t, s.next)[k] ==> h in s.handles && s.handles[h].near == k.near
  {
    var m, b := FreshTable(s, t, s.next), Cell(s.tasks[t].py, k.near);
    forall h | h in m[k] ensures b in s.tracked && h in s.tracked[b] && h in s.handles && s.handles[h].near == k.near {
      assert HandleOk(s, h);
    }
    var h :| h in m[k];
    assert h in FdHandles(s, t);
  }

  /** A table reserved for a copy of `from`: part of what `from` tracks and owns. */
  ghost predicate Reserves(s: State, s': State, from: Id, to: Id, m: map<Cell, set<Id>>, claims: map<Cell, Owner>) {
    && to !in s.tables && to !in s.reserved && from in s.tables
    && s'.tables == s.tables && s'.kernel == s.kernel && s'.handles == s.handles
    && s'.tracked == s.tracked + m && s'.owner == s.owner + claims && s'.reserved == s.reserved[to := from]
    && (forall k :: k in claims ==> k.table == to && Cell(from, k.near) in s.owner)
    && (forall k :: k in m ==> k.table == to && k in claims && claims[k] == Tracked)
    && (forall k :: k in m ==> Cell(from, k.near) in s.tracked && m[k] <= s.tracked[Cell(from, k.near)])
  }

  lemma {:induction false} ReserveTables(s: State, s': State, from: Id, to: Id, m: map<Cell, set<Id>>,
      claims: map<Cell, Owner>)
    requires TablesOk(s) && Reserves(s, s', from, to, m, claims)
    ensures TablesOk(s')
  {
  }

  lemma {:induction false} ReserveNames(s: State, s': State, from: Id, to: Id, k: Cell, file: Id)
    requires s'.kernel == s.kernel && s'.reserved == s.reserved[to := from] && from !in s.reserved
    requires Names(s, if k.table == to then Cell(from, k.near) else k, file)
    ensures Names(s', k, file)
  {
  }

  lemma {:induction false} ReserveTracked(s: State, s': State, from: Id, to: Id, m: map<Cell, set<Id>>)
    requires TrackedOk(s) && from !in s.reserved
    requires s'.kernel == s.kernel && s'.handles == s.handles && s'.tracked == s.tracked + m
             && s'.reserved == s.reserved[to := from]
    requires forall k :: k in s.tracked ==> k.table != to
    requires forall k :: k in m ==>
               k.table == to && Cell(from, k.near) in s.tracked && m[k] <= s.tracked[Cell(from, k.near)]
    ensures TrackedOk(s')
  {
    forall k, h | k in s'.tracked && h in s'.tracked[k]
      ensures h in s'.handles && s'.handles[h].near == k.near && Names(s', k, s'.handles[h].file)
    {
      var b := if k.table == to then Cell(from, k.near) else k;
      assert b in s.tracked && h in s.tracked[b];
      ReserveNames(s, s', from, to, k, s.handles[h].file);
    }
  }

  lemma {:induction false} SendUnshareReserves(s: State, t: Id)
    requires TablesOk(s) && HandlesOk(s)
    requires CanStartUnshare(s, t) && s.next !in s.tables && s.next !in s.reserved && s.tasks[t].py in s.tables
    ensures Reserves(s, SendUnshare(s, t), s.tasks[t].py, s.next, FreshTable(s, t, s.next), Claims(s, t, s.next))
  {
    var from, to, m, claims := s.tasks[t].py, s.next, FreshTable(s, t, s.next), Claims(s, t, s.next);
    forall k | k in m
      ensures k.table == to && k in claims && claims[k] == Tracked
      ensures Cell(from, k.near) in s.tracked && m[k] <= s.tracked[Cell(from, k.near)]
    {
      FreshHandle(s, t, k);
    }
  }

  lemma {:induction false} SendUnshareClose(s: State, t: Id, c: Id)
    requires TablesOk(s) && CanStartUnshare(s, t) && s.next !in s.tables && s.next !in s.reserved
             && s.tasks[t].py in s.tables
    requires c in s.closes && CloseOk(s, c, s.closes[c])
    ensures CloseOk(SendUnshare(s, t), c, SendUnshare(s, t).closes[c])
  {
    hide FreshTable, Claims;
    var s', d := SendUnshare(s, t), s.closes[c];
    var k := Cell(s.tasks[t].py, d.near);
    if Waiting(s, t, c) {
      assert k in s.owner && Claimed(s, t, k);
      assert Cell(s.next, d.near) in s'.owner;
    }
  }

  lemma {:induction false} SendUnshareProtects(s: State, t: Id, c: Id, f: Id)
    requires TablesOk(s) && ClosesOk(s)
    requires CanStartUnshare(s, t) && s.next !in s.tables && s.next !in s.reserved && s.tasks[t].py in s.tables
    requires var s' := SendUnshare(s, t); CanStillRun(s', c) && f in s'.reserved && s'.reserved[f] == s'.closes[c].dest
    ensures var s' := SendUnshare(s, t); Cell(f, s'.closes[c].near) !in s'.owner
  {
    hide FreshTable, Claims;
    var s', d := SendUnshare(s, t), s.closes[c];
    assert CloseOk(s, c, d);
    assert Cell(s.next, d.near) in Claims(s, t, s.next) ==> Claimed(s, t, Cell(s.tasks[t].py, d.near));
  }

  lemma {:induction false} SendUnshareTables(s: State, t: Id)
    requires TablesOk(s) && HandlesOk(s)
    requires CanStartUnshare(s, t) && s.next !in s.tables && s.next !in s.reserved && s.tasks[t].py in s.tables
    ensures TablesOk(SendUnshare(s, t))
  {
    SendUnshareReserves(s, t);
    ReserveTables(s, SendUnshare(s, t), s.tasks[t].py, s.next, FreshTable(s, t, s.next), Claims(s, t, s.next));
  }

  lemma {:induction false} SendUnshareArrivals(s: State, t: Id)
    requires ArrivalsOk(s) && TablesOk(s)
    requires CanStartUnshare(s, t) && s.next !in s.tables && s.next !in s.reserved && s.tasks[t].py in s.tables
    ensures ArrivalsOk(SendUnshare(s, t))
  {
  }

  lemma {:induction false} SendUnshareTracked(s: State, t: Id)
    requires TrackedOk(s) && TablesOk(s) && HandlesOk(s)
    requires CanStartUnshare(s, t) && s.next !in s.tables && s.next !in s.reserved && s.tasks[t].py in s.tables
    ensures TrackedOk(SendUnshare(s, t))
  {
    SendUnshareReserves(s, t);
    ReserveTracked(s, SendUnshare(s, t), s.tasks[t].py, s.next, FreshTable(s, t, s.next));
  }

  lemma {:induction false} SendUnshareHandles(s: State, t: Id)
    requires HandlesOk(s) && TablesOk(s)
    requires CanStartUnshare(s, t) && s.next !in s.tables && s.next !in s.reserved && s.tasks[t].py in s.tables
    ensures HandlesOk(SendUnshare(s, t))
  {
    hide FreshTable, Claims;
  }

  lemma {:induction false} SendUnshareLegacy(s: State, t: Id)
    requires LegacyOk(s) && TablesOk(s)
    requires CanStartUnshare(s, t) && s.next !in s.tables && s.next !in s.reserved && s.tasks[t].py in s.tables
    ensures LegacyOk(SendUnshare(s, t))
  {
  }

  lemma {:induction false} SendUnshareCloses(s: State, t: Id)
    requires ClosesOk(s) && TablesOk(s)
    requires CanStartUnshare(s, t) && s.next !in s.tables && s.next !in s.reserved && s.tasks[t].py in s.tables
    ensures ClosesOk(SendUnshare(s, t))
  {
    var s', from, to := SendUnshare(s, t), s.tasks[t].py, s.next;
    forall c | c in s'.closes ensures CloseOk(s', c, s'.closes[c]) {
      SendUnshareClose(s, t, c);
    }
    forall c, f | CanStillRun(s', c) && f in s'.reserved && s'.reserved[f] == s'.closes[c].dest
      ensures Cell(f, s'.closes[c].near) !in s'.owner
    {
      SendUnshareProtects(s, t, c, f);
    }
  }

  lemma {:induction false} SendUnshareTasks(s: State, t: Id)
    requires TasksOk(s)
    requires CanStartUnshare(s, t) && s.next !in s.tables && s.next !in s.reserved && s.tasks[t].py in s.tables
    ensures TasksOk(SendUnshare(s, t))
  {
  }

}
