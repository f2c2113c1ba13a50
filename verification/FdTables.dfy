/**
 File-descriptor ownership: tasks, shared descriptor tables, handles, garbage collection and
 unshare_files, together with the kernel tables the system calls act on.

 Every task has one pipe of system calls. Calls are submitted at its end, the kernel runs them
 in order (`done` of them have run), and their results are handled in order from its front. A
 step is one stretch of program code between awaits, or one call run by the kernel.

 `owner` is bookkeeping of the model: it says who is responsible for an open number.
 */
module FdTables {
  import opened Prelude

  /** Descriptor numbers, and identities of tasks, tables, handles, calls and open files. */
  type Id = int

  /** A descriptor number in a table. */
  datatype Cell = Cell(table: Id, near: Id)

  /** A `FileDescriptor`; `file` is the open file it was made for. */
  datatype Handle = Handle(task: Id, near: Id, file: Id, valid: bool)

  /** A close in progress: scheduled by GC, or in its task's pipe. It runs in table `dest`. */
  datatype Close = Close(task: Id, near: Id, origin: Id, dest: Id, queued: bool, holder: Option<Id>)

  /** An open that has run, and whose result has not been handled yet. */
  datatype Arrival = Arrival(task: Id, cell: Cell, file: Id)

  datatype Entry = Open | Opened(o: Id) | Closing(c: Id) | Closed(near: Id, origin: Id) | Unshare

  /** `Unsharing` is `manipulating_fd_table`; the unshare call sits at position `pos` of the pipe. */
  datatype Phase = Stable | Unsharing(was: Id, pos: nat)

  datatype Task = Task(py: Id, phase: Phase, pipe: seq<Entry>, done: nat, dead: bool)

  datatype Owner = Tracked | ClosedBy(c: Id) | ArrivesAs(o: Id) | Leaked

  /** A handle that a table's task may inherit. */
  datatype Legacy = Legacy(table: Id, handle: Id)

  datatype State = State(
    tasks: map<Id, Task>,
    handles: map<Id, Handle>,
    tracked: map<Cell, set<Id>>,   // near_to_handles of every table
    legacy: set<Legacy>,           // inherited handles whose number was not closed since the clone
    closes: map<Id, Close>,
    arrivals: map<Id, Arrival>,
    tables: set<Id>,               // kernel tables
    kernel: map<Cell, Id>,         // open numbers and their files
    reserved: map<Id, Id>,         // tables of unshares still to run, and the table to be copied
    owner: map<Cell, Owner>,
    next: Id)

  /** The table in which the call at position `i` of the pipe runs. */
  function TableAt(t: Task, i: nat): Id {
    match t.phase
    case Stable => t.py
    case Unsharing(was, pos) => if i <= pos then was else t.py
  }

  /** The kernel table the task is in now. */
  function KernelOf(t: Task): Id { TableAt(t, t.done) }

  /** The kernel cell that holds, or will be copied to, a cell. */
  function Back(s: State, k: Cell): Cell {
    if k.table in s.reserved then Cell(s.reserved[k.table], k.near) else k
  }

  // ---------------------------------------------------------------- the pipe

  function Push(t: Task, e: Entry): Task { t.(pipe := t.pipe + [e]) }

  /** Takes entry `i` out of the pipe. */
  function Take(t: Task, i: nat): Task
    requires i < |t.pipe|
  {
    t.(pipe := t.pipe[..i] + t.pipe[i + 1..],
       done := if i < t.done then t.done - 1 else t.done,
       phase := match t.phase
                case Stable => Stable
                case Unsharing(was, pos) =>
                  if i < pos then Unsharing(was, pos - 1) else if i == pos then Stable else t.phase)
  }

  /** The first call not yet run has run, and left `e` as its result. */
  function Ran(t: Task, e: Entry): Task
    requires t.done < |t.pipe|
  {
    t.(pipe := t.pipe[t.done := e], done := t.done + 1)
  }

  /** The next call the kernel runs for a live task. */
  predicate Ready(s: State, t: Id) {
    t in s.tasks && !s.tasks[t].dead && s.tasks[t].done < |s.tasks[t].pipe|
  }

  function NextCall(s: State, t: Id): Entry
    requires Ready(s, t)
  {
    s.tasks[t].pipe[s.tasks[t].done]
  }

  /** The first result waits to be handled. */
  predicate HasResult(s: State, t: Id) {
    t in s.tasks && 0 < s.tasks[t].done <= |s.tasks[t].pipe|
  }

  // ---------------------------------------------------------------- handles

  /** `_make_fd_handle_from_near`. */
  function MakeHandle(s: State, t: Id, near: Id, file: Id): State
    requires t in s.tasks
  {
    var k := Cell(s.tasks[t].py, near);
    s.(handles := s.handles[s.next := Handle(t, near, file, true)],
       tracked := s.tracked[k := (if k in s.tracked then s.tracked[k] else {}) + {s.next}],
       owner := s.owner[k := Tracked],
       next := s.next + 1)
  }

  /** Where a valid handle is tracked. */
  predicate Current(s: State, h: Id) {
    h in s.handles && s.handles[h].valid && s.handles[h].task in s.tasks && CellOf(s, h) in s.tracked
  }

  function CellOf(s: State, h: Id): Cell
    requires h in s.handles && s.handles[h].task in s.tasks
  {
    Cell(s.tasks[s.handles[h].task].py, s.handles[h].near)
  }

  /** `_remove_from_tracking` of a handle that becomes invalid. */
  function Untrack(s: State, h: Id): State
    requires Current(s, h)
  {
    var k := CellOf(s, h);
    s.(handles := s.handles[h := s.handles[h].(valid := false)],
       tracked := s.tracked[k := s.tracked[k] - {h}])
  }

  /** The inherited handles whose number is not this one. */
  function Unclosed(legacy: set<Legacy>, handles: map<Id, Handle>, k: Cell): set<Legacy> {
    set l | l in legacy && !(l.table == k.table && l.handle in handles && handles[l.handle].near == k.near)
  }

  /** Drops a number from the table's dictionary and takes responsibility for closing it. */
  function Initiate(s: State, t: Id, near: Id, queued: bool, holder: Option<Id>): State
    requires t in s.tasks
  {
    var k := Cell(s.tasks[t].py, near);
    s.(tracked := s.tracked - {k},
       legacy := Unclosed(s.legacy, s.handles, k),
       closes := s.closes[s.next := Close(t, near, k.table, k.table, queued, holder)],
       owner := s.owner[k := ClosedBy(s.next)],
       tasks := if queued then s.tasks[t := Push(s.tasks[t], Closing(s.next))] else s.tasks,
       next := s.next + 1)
  }

  /** Valid handles of a task: its `fd_handles`. */
  function FdHandles(s: State, t: Id): set<Id> {
    set h | h in s.handles && s.handles[h].valid && s.handles[h].task == t
  }

  // ---------------------------------------------------------------- the kernel's steps

  predicate CanRunOpen(s: State, t: Id, near: Id) {
    Ready(s, t) && NextCall(s, t) == Open && Cell(KernelOf(s.tasks[t]), near) !in s.kernel
  }

  /** The kernel opens a new file at a number that is free in the task's table. */
  function RunOpen(s: State, t: Id, near: Id): State
    requires CanRunOpen(s, t, near)
  {
    var k := Cell(KernelOf(s.tasks[t]), near);
    s.(tasks := s.tasks[t := Ran(s.tasks[t], Opened(s.next))],
       arrivals := s.arrivals[s.next := Arrival(t, k, s.next)],
       kernel := s.kernel[k := s.next],
       owner := s.owner[k := ArrivesAs(s.next)],
       next := s.next + 1)
  }

  predicate CanRunClose(s: State, t: Id) {
    Ready(s, t) && NextCall(s, t).Closing? && NextCall(s, t).c in s.closes
  }

  /** The close runs in whatever table the task is in. */
  function RunClose(s: State, t: Id): State
    requires CanRunClose(s, t)
  {
    var c := NextCall(s, t).c;
    var k := Cell(KernelOf(s.tasks[t]), s.closes[c].near);
    s.(tasks := s.tasks[t := Ran(s.tasks[t], Closed(s.closes[c].near, s.closes[c].origin))],
       closes := s.closes - {c},
       kernel := s.kernel - {k},
       owner := s.owner - {k})
  }

  predicate CanRunUnshare(s: State, t: Id) {
    Ready(s, t) && NextCall(s, t) == Unshare && s.tasks[t].phase.Unsharing?
  }

  /** The open numbers of table `from`, as numbers of table `to`. */
  function CopyOf(s: State, from: Id, to: Id): (copy: map<Cell, Id>)
    ensures forall k :: k in copy <==> k.table == to && Cell(from, k.near) in s.kernel
    ensures forall k :: k in copy ==> copy[k] == s.kernel[Cell(from, k.near)]
  {
    map k | k in (set o | o in s.kernel && o.table == from :: Cell(to, o.near)) && Cell(from, k.near) in s.kernel ::
      s.kernel[Cell(from, k.near)]
  }

  /** Numbers nobody is responsible for. */
  function Leak(copy: map<Cell, Id>): map<Cell, Owner> {
    map k | k in copy :: Leaked
  }

  /** Table `to` becomes a copy of `from`; numbers nobody claimed in the copy are leaked there. */
  function Copied(s: State, from: Id, to: Id): State {
    var copy := CopyOf(s, from, to);
    s.(tables := s.tables + {to},
       kernel := s.kernel + copy,
       reserved := s.reserved - {to},
       owner := Leak(copy) + s.owner)
  }

  /** The kernel copies the task's table. */
  function RunUnshare(s: State, t: Id): State
    requires CanRunUnshare(s, t)
  {
    var task := s.tasks[t];
    Copied(s.(tasks := s.tasks[t := Ran(task, Unshare)]), task.phase.was, task.py)
  }

  // ---------------------------------------------------------------- the program's steps

  function SubmitOpen(s: State, t: Id): State
    requires t in s.tasks
  {
    s.(tasks := s.tasks[t := Push(s.tasks[t], Open)])
  }

  predicate CanSettle(s: State, t: Id) {
    HasResult(s, t) && s.tasks[t].pipe[0].Opened? && s.tasks[t].pipe[0].o in s.arrivals
  }

  /** The result of an open is taken; until a handle is made, nobody is responsible for it. */
  function Settle(s: State, t: Id): State
    requires CanSettle(s, t)
  {
    var o := s.tasks[t].pipe[0].o;
    s.(tasks := s.tasks[t := Take(s.tasks[t], 0)],
       arrivals := s.arrivals - {o},
       owner := s.owner[s.arrivals[o].cell := Leaked])
  }

  /** `make_fd_handle` on the number an open returned; when one of its checks fires, the
      descriptor is leaked. */
  function OnOpened(s: State, t: Id): State
    requires CanSettle(s, t)
  {
    var a := s.arrivals[s.tasks[t].pipe[0].o];
    if AlreadyKnown(s, t) || s.tasks[t].phase.Unsharing? then Settle(s, t)
    else MakeHandle(Settle(s, t), t, a.cell.near, a.file)
  }

  /** make_fd_handle's complaint "This fd is already known to us". */
  predicate AlreadyKnown(s: State, t: Id)
    requires CanSettle(s, t)
  {
    Cell(s.tasks[t].py, s.arrivals[s.tasks[t].pipe[0].o].cell.near) in s.tracked
  }

  predicate CanOnClosed(s: State, t: Id) {
    HasResult(s, t) && s.tasks[t].pipe[0].Closed?
  }

  function OnClosed(s: State, t: Id): State
    requires CanOnClosed(s, t)
  {
    s.(tasks := s.tasks[t := Take(s.tasks[t], 0)])
  }

  predicate CanOnUnshared(s: State, t: Id) {
    HasResult(s, t) && s.tasks[t].pipe[0] == Unshare && s.tasks[t].phase.Unsharing?
  }

  /** The end of `unshare_files`: only now do the task's handles leave the old table. */
  function OnUnshared(s: State, t: Id): State
    requires CanOnUnshared(s, t)
  {
    var was, mine := s.tasks[t].phase.was, FdHandles(s, t);
    s.(tasks := s.tasks[t := Take(s.tasks[t], 0)],
       tracked := map k | k in s.tracked :: if k.table == was then s.tracked[k] - mine else s.tracked[k])
  }

  predicate CanShare(s: State, h: Id, t: Id) {
    && h in s.handles && s.handles[h].valid && t in s.tasks && s.tasks[t].phase.Stable?
    && s.handles[h].task in s.tasks && s.tasks[s.handles[h].task].py == s.tasks[t].py
  }

  predicate CanInherit(s: State, h: Id, t: Id) {
    && h in s.handles && s.handles[h].valid && t in s.tasks && s.tasks[t].phase.Stable?
    && Legacy(s.tasks[t].py, h) in s.legacy
  }

  /** `for_task`, and `inherit_fd` on a number the child has not closed since its clone. */
  function Share(s: State, h: Id, t: Id): State
    requires CanShare(s, h, t) || CanInherit(s, h, t)
  {
    MakeHandle(s, t, s.handles[h].near, s.handles[h].file)
  }

  /** `invalidate`; the last handle of a number submits the close at once. */
  function Invalidate(s: State, h: Id): State
    requires Current(s, h)
  {
    var s' := Untrack(s, h);
    if LastHandle(s, h) then Initiate(s', s.handles[h].task, s.handles[h].near, true, Some(h)) else s'
  }

  predicate LastHandle(s: State, h: Id)
    requires Current(s, h)
  {
    s.tracked[CellOf(s, h)] - {h} == {}
  }

  predicate CanCollect(s: State, h: Id) {
    h in s.handles && forall c :: c in s.closes ==> s.closes[c].holder != Some(h)
  }

  /** A handle object is garbage-collected and vanishes from every weak set; a handle whose
      close is awaited is still referenced. */
  function Collect(s: State, h: Id): State {
    s.(handles := s.handles - {h},
       tracked := map k | k in s.tracked :: s.tracked[k] - {h},
       legacy := (set l | l in s.legacy && l.handle != h))
  }

  predicate CanGc(s: State, t: Id, near: Id) {
    t in s.tasks && Cell(s.tasks[t].py, near) in s.tracked && s.tracked[Cell(s.tasks[t].py, near)] == {}
  }

  /** One number found without handles by `gc_using_task`; the close is only scheduled. */
  function Gc(s: State, t: Id, near: Id): State
    requires CanGc(s, t, near)
  {
    Initiate(s, t, near, false, None)
  }

  predicate CanSubmitClose(s: State, c: Id) {
    c in s.closes && !s.closes[c].queued && s.closes[c].task in s.tasks
  }

  function SubmitClose(s: State, c: Id): State
    requires CanSubmitClose(s, c)
  {
    var t := s.closes[c].task;
    s.(tasks := s.tasks[t := Push(s.tasks[t], Closing(c))],
       closes := s.closes[c := s.closes[c].(queued := true)])
  }

  predicate CanStartUnshare(s: State, t: Id) {
    t in s.tasks && s.tasks[t].phase.Stable?
  }

  /** A close that GC scheduled on the task and that has not been submitted. */
  predicate Waiting(s: State, t: Id, c: Id) {
    c in s.closes && s.closes[c].task == t && !s.closes[c].queued
  }

  /** `near_to_handles` of the fresh table: the task's handles by number. */
  function FreshTable(s: State, t: Id, to: Id): (m: map<Cell, set<Id>>)
    ensures forall k :: k in m ==> k.table == to && m[k] != {}
    ensures forall k, h :: k in m ==> (h in m[k] <==> h in FdHandles(s, t) && s.handles[h].near == k.near)
    ensures forall h :: h in FdHandles(s, t) ==> Cell(to, s.handles[h].near) in m
  {
    var m := map k | k in (set h | h in FdHandles(s, t) :: Cell(to, s.handles[h].near)) ::
      set h | h in FdHandles(s, t) && s.handles[h].near == k.near;
    assert forall k :: k in m ==> exists h :: h in FdHandles(s, t) && k == Cell(to, s.handles[h].near) && h in m[k];
    m
  }

  /** Whoever will be responsible for a number in the copy: its handles, or a scheduled close. */
  predicate Claimed(s: State, t: Id, k: Cell)
    requires t in s.tasks
  {
    k in s.owner && k.table == s.tasks[t].py
    && ((s.owner[k].ClosedBy? && Waiting(s, t, s.owner[k].c))
        || (s.owner[k].Tracked? && exists h :: h in FdHandles(s, t) && s.handles[h].near == k.near))
  }

  function Claims(s: State, t: Id, to: Id): (m: map<Cell, Owner>)
    requires t in s.tasks
    ensures forall k :: k in m ==>
              k.table == to && Claimed(s, t, Cell(s.tasks[t].py, k.near))
              && m[k] == s.owner[Cell(s.tasks[t].py, k.near)]
    ensures forall k :: k in s.owner && Claimed(s, t, k) ==> Cell(to, k.near) in m
  {
    map k | k in (set o | o in s.owner && Claimed(s, t, o) :: Cell(to, o.near))
        && Claimed(s, t, Cell(s.tasks[t].py, k.near)) ::
      s.owner[Cell(s.tasks[t].py, k.near)]
  }

  /** Scheduled closes of the task will now run in the new table. */
  function SendUnshare(s: State, t: Id): State
    requires CanStartUnshare(s, t)
  {
    var task, to := s.tasks[t], s.next;
    s.(tasks := s.tasks[t := Task(to, Unsharing(task.py, |task.pipe|), task.pipe + [Unshare], task.done, task.dead)],
       tracked := s.tracked + FreshTable(s, t, to),
       closes := map c | c in s.closes :: if Waiting(s, t, c) then s.closes[c].(dest := to) else s.closes[c],
       reserved := s.reserved[to := task.py],
       owner := s.owner + Claims(s, t, to),
       next := s.next + 1)
  }

  predicate CanAbandon(s: State, t: Id) {
    t in s.tasks && s.tasks[t].phase.Unsharing? && s.tasks[t].py in s.reserved
  }

  /** The unshare of a task whose connection is lost will never run, and nobody will ever be in its
      new table. From then on that table counts as the copy it would have been at this moment: the
      program still keeps a dictionary for it, and nothing that happens to the old table matters. */
  function Abandon(s: State, t: Id): State
    requires CanAbandon(s, t)
  {
    Copied(s, s.tasks[t].phase.was, s.tasks[t].py)
  }

  /** `unshare_files` up to sending the call. */
  function StartUnshare(s: State, t: Id): State
    requires CanStartUnshare(s, t)
  {
    var s' := SendUnshare(s, t);
    if s.tasks[t].dead then Abandon(s', t) else s'
  }

  function MarkDead(s: State, t: Id): State
    requires t in s.tasks
  {
    s.(tasks := s.tasks[t := s.tasks[t].(dead := true)])
  }

  /** The connection breaks. */
  function Hang(s: State, t: Id): State
    requires t in s.tasks
  {
    var s' := MarkDead(s, t);
    if CanAbandon(s', t) then Abandon(s', t) else s'
  }

  predicate CanHangClose(s: State, t: Id, i: nat) {
    && t in s.tasks && s.tasks[t].dead && s.tasks[t].done <= i < |s.tasks[t].pipe|
    && s.tasks[t].pipe[i].Closing? && s.tasks[t].pipe[i].c in s.closes
  }

  /** The connection broke before the close ran; the number is put back, without handles. */
  function HangClose(s: State, t: Id, i: nat): State
    requires CanHangClose(s, t, i)
  {
    var c := s.tasks[t].pipe[i].c;
    var d := s.closes[c];
    var k := Cell(d.origin, d.near);
    s.(tasks := s.tasks[t := Take(s.tasks[t], i)],
       tracked := s.tracked[k := {}],
       closes := s.closes - {c},
       owner := (if d.dest in s.reserved then s.owner - {Cell(d.dest, d.near)} else s.owner)[k := Tracked])
  }

  /** clone is one step: its call runs at once, through a connection that works. */
  predicate CanClone(s: State, t: Id) {
    CanStartUnshare(s, t) && !s.tasks[t].dead
  }

  /** clone with CLONE_FILES. */
  function CloneShared(s: State, t: Id): State
    requires CanStartUnshare(s, t)
  {
    s.(tasks := s.tasks[s.next := Task(s.tasks[t].py, Stable, [], 0, false)], next := s.next + 1)
  }

  /** clone without CLONE_FILES: a copied table, in which the parent's handles can be inherited. */
  function CloneCopied(s: State, t: Id): State
    requires CanStartUnshare(s, t)
  {
    var from, to := s.tasks[t].py, s.next;
    var copy := CopyOf(s, from, to);
    s.(tasks := s.tasks[to := Task(to, Stable, [], 0, false)],
       legacy := s.legacy + (set l | l in s.legacy && l.table == from :: Legacy(to, l.handle))
                          + (set k, h | k in s.tracked && k.table == from && h in s.tracked[k] :: Legacy(to, h)),
       tables := s.tables + {to},
       kernel := s.kernel + copy,
       owner := s.owner + Leak(copy),
       next := s.next + 1)
  }
}
