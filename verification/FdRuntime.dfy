/** The descriptor-handling code itself, updating handles, tables and tasks in place. */
module FdRuntime {
  import opened Prelude
  import opened FdTables
  import opened FdInvariant
  import opened FdSteps
  import opened FdSafety
  import opened FdSets
  import FdRuns

  datatype Result<T> = Ok(value: T) | InvalidHandle | TableMismatch | Manipulating | NotInherited

  method Pick<T(==)>(s: set<T>) returns (x: T)
    requires s != {}
    ensures x in s
  {
    x :| x in s;
  }

  class Runtime {
    var tasks: map<Id, Task>
    var handles: map<Id, Handle>
    var tracked: map<Cell, set<Id>>
    var closes: map<Id, Close>
    var next: Id
    var inherited: set<Legacy>               // of every table
    ghost var legacy: set<Legacy>            // those whose number was not closed since the clone
    ghost var arrivals: map<Id, Arrival>
    ghost var tables: set<Id>
    ghost var kernel: map<Cell, Id>
    ghost var reserved: map<Id, Id>
    ghost var owner: map<Cell, Owner>

    ghost function View(): State
      reads this
    {
      State(tasks, handles, tracked, legacy, closes, arrivals, tables, kernel, reserved, owner, next)
    }

    /** One task in one table. */
    constructor ()
      ensures FdRuns.Init(View()) && Inv(View()) && tasks.Keys == {0} && inherited == {}
    {
      tasks, handles, tracked, closes, next := map[0 := Task(1, Stable, [], 0, false)], map[], map[], map[], 2;
      inherited, legacy, arrivals, tables, kernel, reserved, owner := {}, {}, map[], {1}, map[], map[], map[];
      new;
      FdRuns.InitInv(View());
    }

    /** `_make_fd_handle_from_near`. */
    method MakeHandle(t: Id, near: Id, file: Id) returns (h: Id)
      requires t in tasks && next !in handles
      modifies this`handles, this`tracked, this`owner, this`next
      ensures View() == FdTables.MakeHandle(old(View()), t, near, file) && h == old(next)
      ensures Adds(old(View()), View(), t, near, file, h)
    {
      hide Adds;
      MadeIs(View(), t, near, file);
      ghost var s' := FdTables.MakeHandle(View(), t, near, file);
      h, next := next, next + 1;
      handles := handles[h := Handle(t, near, file, true)];
      var k := Cell(tasks[t].py, near);
      tracked := tracked[k := (if k in tracked then tracked[k] else {}) + {h}];
      owner := s'.owner;
      assert handles == s'.handles;
      assert tracked == s'.tracked;
    }

    /** `for_task`: a handle of `t`, for the same file. */
    method ForTask(h: Id, t: Id) returns (r: Result<Id>)
      requires Inv(View()) && h in handles && t in tasks && handles[h].task in tasks
      modifies this`handles, this`tracked, this`owner, this`next
      ensures Inv(View())
      ensures r == if !old(handles)[h].valid then InvalidHandle
                   else if old(tasks)[old(handles)[h].task].py != old(tasks)[t].py then TableMismatch
                   else if old(tasks)[t].phase.Unsharing? then Manipulating else Ok(old(next))
      ensures r.Ok? ==> Adds(old(View()), View(), t, old(handles)[h].near, old(handles)[h].file, r.value)
      ensures r.Ok? <==> CanShare(old(View()), h, t)
      ensures View() == if r.Ok? then Share(old(View()), h, t) else old(View())
    {
      if !handles[h].valid { return InvalidHandle; }
      if tasks[handles[h].task].py != tasks[t].py { return TableMismatch; }
      if tasks[t].phase.Unsharing? { return Manipulating; }
      ShareKeeps(View(), h, t);
      InvFresh(View());
      hide Inv;
      var n := MakeHandle(t, handles[h].near, handles[h].file);
      r := Ok(n);
    }

    /** `inherit_fd`: a handle of `t`, for the same file, unless the number was closed since the clone. */
    method InheritFd(h: Id, t: Id) returns (r: Result<Id>)
      requires Inv(View()) && legacy <= inherited && h in handles && t in tasks && handles[h].task in tasks
      modifies this`handles, this`tracked, this`owner, this`next
      ensures r == if !old(handles)[h].valid then InvalidHandle
                   else if old(tasks)[old(handles)[h].task].py != old(tasks)[t].py
                           && Legacy(old(tasks)[t].py, h) !in inherited
                   then NotInherited
                   else if old(tasks)[t].phase.Unsharing? then Manipulating else Ok(old(next))
      ensures r.Ok? ==> Adds(old(View()), View(), t, old(handles)[h].near, old(handles)[h].file, r.value)
      ensures !r.Ok? ==> View() == old(View())
      ensures CanShare(old(View()), h, t) || CanInherit(old(View()), h, t) ==>
                r.Ok? && View() == Share(old(View()), h, t) && Inv(View())
    {
      if !handles[h].valid { return InvalidHandle; }
      if tasks[handles[h].task].py != tasks[t].py && Legacy(tasks[t].py, h) !in inherited { return NotInherited; }
      if tasks[t].phase.Unsharing? { return Manipulating; }
      if CanShare(View(), h, t) || CanInherit(View(), h, t) { ShareKeeps(View(), h, t); }
      InvFresh(View());
      hide Inv;
      var n := MakeHandle(t, handles[h].near, handles[h].file);
      r := Ok(n);
    }

    /** The table of a clone without CLONE_FILES, and the kernel's part of the clone. */
    method CloneTable(t: Id) returns (child: Id)
      requires Inv(View()) && legacy <= inherited && CanClone(View(), t)
      modifies this
      ensures Inv(View()) && View() == CloneCopied(old(View()), t) && legacy <= inherited
      ensures child !in old(tasks) && tasks == old(tasks)[child := Task(child, Stable, [], 0, false)]
      ensures forall l :: l in inherited <==>
                || l in old(inherited)
                || (l.table == child && Legacy(old(tasks)[t].py, l.handle) in old(inherited))
                || (l.table == child && exists k ::
                      k in tracked && k.table == old(tasks)[t].py && l.handle in tracked[k])
    {
      hide Inv, CloneCopied, PassedOn;
      ghost var s' := CloneCopied(View(), t);
      CloneCopiedKeeps(View(), t);
      InvFresh(View());
      assert next !in tasks by { FreshTask(View()); }
      CloneCopiedIs(View(), t, inherited);
      child, next := next, next + 1;
      inherited := inherited + PassedOn(inherited, tracked, tasks[t].py, child);
      tasks := tasks[child := Task(child, Stable, [], 0, false)];
      legacy, tables, kernel, owner := s'.legacy, s'.tables, s'.kernel, s'.owner;
    }

    /** `_remove_from_tracking` of a handle just made invalid; says whether it was the last one. */
    method RemoveFromTracking(h: Id) returns (last: bool)
      requires Current(View(), h) && h in tracked[CellOf(View(), h)]
      modifies this`handles, this`tracked
      ensures View() == Untrack(old(View()), h) && (last <==> LastHandle(old(View()), h))
      ensures handles == old(handles)[h := old(handles)[h].(valid := false)]
      ensures TracksOneLess(old(tracked), tracked, Cell(old(tasks)[old(handles)[h].task].py, old(handles)[h].near), h)
    {
      handles := handles[h := handles[h].(valid := false)];
      var k := Cell(tasks[handles[h].task].py, handles[h].near);
      tracked := tracked[k := tracked[k] - {h}];
      last := tracked[k] == {};
    }

    /** `move`: the new handle keeps the number alive, so nothing needs to be closed. */
    method Move(h: Id, t: Id) returns (r: Result<Id>)
      requires Inv(View()) && h in handles && t in tasks && handles[h].task in tasks
      modifies this`handles, this`tracked, this`owner, this`next
      ensures Inv(View())
      ensures r.Ok? <==> CanShare(old(View()), h, t)
      ensures View() == if r.Ok? then Untrack(Share(old(View()), h, t), h) else old(View())
      ensures r.Ok? ==>
                && r.value !in old(handles)
                && handles == old(handles)[h := old(handles)[h].(valid := false)]
                                          [r.value := Handle(t, old(handles)[h].near, old(handles)[h].file, true)]
    {
      hide Inv, Share, Untrack, LastHandle, CellOf;
      ghost var was := View();
      r := ForTask(h, t);
      if r.Ok? {
        MovedIsNotLast(was, h, t);
        UntrackKeeps(View(), h);
        var last := RemoveFromTracking(h);
        assert !last;
      }
    }

    /** Takes responsibility for closing a number: it leaves the dictionary at once. */
    method TakeOver(t: Id, near: Id, queued: bool, holder: Option<Id>)
      requires t in tasks
      modifies this`tasks, this`tracked, this`closes, this`next, this`legacy, this`owner
      ensures View() == Initiate(old(View()), t, near, queued, holder)
      ensures tracked == old(tracked) - {Cell(old(tasks)[t].py, near)}
      ensures closes == old(closes)[old(next) := Close(t, near, old(tasks)[t].py, old(tasks)[t].py, queued, holder)]
      ensures tasks == if queued then old(tasks)[t := Push(old(tasks)[t], Closing(old(next)))] else old(tasks)
    {
      hide Push, Unclosed;
      ghost var s' := Initiate(View(), t, near, queued, holder);
      var k := Cell(tasks[t].py, near);
      tracked, closes := tracked - {k}, closes[next := Close(t, near, k.table, k.table, queued, holder)];
      tasks := if queued then tasks[t := Push(tasks[t], Closing(next))] else tasks;
      next, legacy, owner := next + 1, s'.legacy, s'.owner;
      assert tracked == s'.tracked && closes == s'.closes && tasks == s'.tasks;
    }

    /** `invalidate`, up to sending the close; says whether a close is sent. The last handle's own task
        closes the number, and the table forgets it. */
    method Invalidate(h: Id) returns (closing: bool)
      requires Inv(View()) && h in handles
      modifies this`handles, this`tasks, this`tracked, this`closes, this`next, this`legacy, this`owner
      ensures !old(handles)[h].valid ==> !closing && View() == old(View())
      ensures old(handles)[h].valid ==>
                && Current(old(View()), h) && View() == FdTables.Invalidate(old(View()), h)
                && (closing <==> LastHandle(old(View()), h))
                && (Careful(old(View()), DoInvalidate(h)) ==> Inv(View()))
                && handles == old(handles)[h := old(handles)[h].(valid := false)]
                && SetsChange(old(View()), DoInvalidate(h), View())
      ensures old(handles)[h].valid ==>
                (closing <==> forall g :: g in old(tracked)[CellOf(old(View()), h)] ==> g == h)
      ensures old(handles)[h].valid && !closing ==> closes == old(closes) && tasks == old(tasks)
      ensures closing ==>
                var t, near := old(handles)[h].task, old(handles)[h].near;
                && t in old(tasks) && Cell(old(tasks)[t].py, near) !in tracked
                && closes == old(closes)[old(next) := Close(t, near, old(tasks)[t].py, old(tasks)[t].py, true, Some(h))]
                && tasks == old(tasks)[t := Push(old(tasks)[t], Closing(old(next)))]
    {
      hide Inv, Untrack, Initiate, LastHandle, CloseSafe, SetsChange, CellOf;
      ghost var s := View();
      closing := false;
      if handles[h].valid {
        HandleIsWhereExpected(s, h);
        InvalidatedSets(s, h);
        LastMeansNoOther(s, h);
        if Careful(s, DoInvalidate(h)) { InvalidateKeeps(s, h); }
        var t, near := handles[h].task, handles[h].near;
        closing := RemoveFromTracking(h);
        UntrackKeeps(s, h);
        assert t in Untrack(s, h).tasks;
        if closing { TakeOver(t, near, true, Some(h)); }
      }
    }

    /** `gc_using_task`: takes over every number without handles, and nothing else. */
    method GcUsingTask(t: Id)
      requires Inv(View()) && t in tasks
      modifies this`tasks, this`tracked, this`closes, this`next, this`legacy, this`owner
      ensures tasks == old(tasks) && tracked == Swept(old(tracked), tasks[t].py, {})
      ensures forall k :: k in old(tracked) && k !in tracked ==> BeingClosed(k, t)
      ensures KeptCloses(old(closes))
      ensures (forall near :: CanGc(old(View()), t, near) ==> MayClose(old(View()), t, near)) ==> Inv(View())
    {
      hide Inv, CloseSafe, Swept, MayClose, BeingClosed, KeptCloses;
      ghost var careful := forall near :: CanGc(View(), t, near) ==> MayClose(View(), t, near);
      var table := tasks[t].py;
      var todo := set k | k in tracked && k.table == table;
      SweptAll(tracked, table, todo);
      assert KeptCloses(closes) by { InvFresh(View()); NothingClosed(); }
      while todo != {}
        invariant careful ==> Inv(View())
        invariant tasks == old(tasks) && tracked == Swept(old(tracked), table, todo)
        invariant forall k :: k in todo ==> k.table == table && k in tracked
        invariant careful ==> forall k :: k in todo && tracked[k] == {} ==> MayClose(View(), t, k.near)
        invariant forall k :: k in old(tracked) && k !in tracked ==> BeingClosed(k, t)
        invariant KeptCloses(old(closes))
        decreases todo
      {
        var k := Pick(todo);
        SweptOne(old(tracked), table, todo, k);
        todo := todo - {k};
        CollectNumber(t, k);
      }
    }

    /** A close of the number through this task is scheduled. */
    ghost predicate BeingClosed(k: Cell, t: Id)
      reads this
    {
      && k in owner && owner[k].ClosedBy? && owner[k].c in closes && owner[k].c < next
      && closes[owner[k].c] == Close(t, k.near, k.table, k.table, false, None)
    }

    /** These closes are as they were. */
    ghost predicate KeptCloses(was: map<Id, Close>)
      reads this
    {
      forall c :: c in was ==> c < next && c in closes && closes[c] == was[c]
    }

    lemma {:induction false} NothingClosed()
      requires forall c :: c in closes ==> c < next
      ensures KeptCloses(closes)
    {
    }

    method CollectNumber(t: Id, k: Cell)
      requires t in tasks && k in tracked && k.table == tasks[t].py
      modifies this`tasks, this`tracked, this`closes, this`next, this`legacy, this`owner
      ensures tasks == old(tasks)
      ensures tracked == if old(tracked)[k] == {} then old(tracked) - {k} else old(tracked)
      ensures owner == if old(tracked)[k] == {} then old(owner)[k := ClosedBy(old(next))] else old(owner)
      ensures forall was :: old(KeptCloses(was)) ==> KeptCloses(was)
      ensures old(tracked)[k] == {} ==> BeingClosed(k, t)
      ensures forall j :: old(BeingClosed(j, t)) && j != k ==> BeingClosed(j, t)
      ensures Inv(old(View())) && (old(tracked)[k] == {} ==> MayClose(old(View()), t, k.near)) ==> Inv(View())
      ensures Inv(old(View())) ==> forall n :: MayClose(old(View()), t, n) ==> MayClose(View(), t, n)
    {
      hide Inv, CloseSafe;
      if tracked[k] == {} {
        ghost var s := View();
        if Inv(s) {
          if MayClose(s, t, k.near) { InitiateKeeps(s, t, k.near, false, None); }
          forall n | MayClose(s, t, n) ensures MayClose(Initiate(s, t, k.near, false, None), t, n) {
            OtherCloseSafe(s, t, k.near, n);
          }
        }
        TakeOver(t, k.near, false, None);
      }
    }

    /** The numbers of a task's handles, for a fresh table. */
    method MakeFreshFdTable(t: Id, to: Id) returns (nearToHandles: map<Cell, set<Id>>)
      ensures nearToHandles == FreshTable(View(), t, to)
    {
      var mine := Mine(t);
      var todo := mine;
      nearToHandles := map[];
      while todo != {}
        invariant todo <= mine
        invariant forall k :: k in nearToHandles ==> k.table == to && nearToHandles[k] != {}
        invariant forall k, h :: k in nearToHandles ==>
                    (h in nearToHandles[k] <==> h in mine && h !in todo && handles[h].near == k.near)
        invariant forall h :: h in mine && h !in todo ==> Cell(to, handles[h].near) in nearToHandles
        decreases todo
      {
        var h := Pick(todo);
        var k := Cell(to, handles[h].near);
        if k !in nearToHandles { nearToHandles := nearToHandles[k := {}]; }
        nearToHandles := nearToHandles[k := nearToHandles[k] + {h}];
        todo := todo - {h};
      }
      SameFreshTable(View(), t, to, nearToHandles);
    }

    /** `unshare_files` from the switch to sending the call; the collection before it is GcUsingTask. */
    method BeginUnshare(t: Id) returns (r: Result<Id>)
      requires Inv(View()) && t in tasks
      modifies this`tasks, this`tracked, this`closes, this`next, this`tables, this`kernel, this`reserved, this`owner
      ensures Inv(View())
      ensures if CanStartUnshare(old(View()), t) then r == Ok(old(next)) && View() == StartUnshare(old(View()), t)
              else r == Manipulating && View() == old(View())
      ensures r.Ok? ==> AlsoTracks(old(View()), View(), t, r.value)
    {
      hide Inv, StartUnshare, AlsoTracks;
      if tasks[t].phase.Unsharing? { return Manipulating; }
      StartUnshareKeeps(View(), t);
      UnshareStarted(View(), t);
      var to := SwitchTable(t);
      r := Ok(to);
    }

    /** `_make_fresh_fd_table`. Closes not yet submitted will run in the new table. */
    method SwitchTable(t: Id) returns (to: Id)
      requires CanStartUnshare(View(), t)
      modifies this`tasks, this`tracked, this`closes, this`next, this`tables, this`kernel, this`reserved, this`owner
      ensures View() == StartUnshare(old(View()), t) && to == old(next)
    {
      hide FreshTable, StartUnshare, Redirected;
      StartUnshareIs(View(), t);
      ghost var s' := StartUnshare(View(), t);
      var task := tasks[t];
      to := next;
      var nearToHandles := MakeFreshFdTable(t, to);
      tasks := tasks[t := Task(to, Unsharing(task.py, |task.pipe|), task.pipe + [Unshare], task.done, task.dead)];
      tracked, closes, next := tracked + nearToHandles, Redirected(closes, t, to), next + 1;
      tables, kernel, reserved, owner := s'.tables, s'.kernel, s'.reserved, s'.owner;
    }

    /** The end of `unshare_files`: every handle of the task is found in the old table. */
    method FinishUnshare(t: Id)
      requires Inv(View()) && CanOnUnshared(View(), t)
      modifies this`tasks, this`tracked
      ensures Inv(View()) && View() == OnUnshared(old(View()), t)
      ensures tracked.Keys == old(tracked).Keys
      ensures forall k :: k in tracked ==>
                tracked[k] == if k.table == old(tasks)[t].phase.was then old(tracked)[k] - FdHandles(old(View()), t)
                              else old(tracked)[k]
    {
      hide Inv, OnUnshared, Take, FdHandles;
      OnUnsharedKeeps(View(), t);
      InOldTable(View(), t);
      UnsharedIs(View(), t);
      var was := tasks[t].phase.was;
      var mine := Mine(t);
      tasks := tasks[t := Take(tasks[t], 0)];
      Withdraw(was, mine);
    }

    /** The task's `fd_handles`. */
    method Mine(t: Id) returns (mine: set<Id>)
      ensures mine == FdHandles(View(), t)
    {
      mine := FdHandles(State(map[], handles, map[], {}, map[], map[], {}, map[], map[], map[], 0), t);
      assert mine == FdHandles(View(), t);
    }

    /** Takes handles out of the sets of a table. */
    method Withdraw(table: Id, hs: set<Id>)
      requires forall h :: h in hs ==> h in handles && Cell(table, handles[h].near) in tracked
      requires forall h, j :: h in hs && j in tracked && h in tracked[j] ==> j.near == handles[h].near
      modifies this`tracked
      ensures tracked == Withdrawn(old(tracked), table, hs)
    {
      var todo := hs;
      assert forall k :: k in tracked ==> tracked[k] - (hs - todo) == tracked[k];
      assert tracked == Withdrawn(tracked, table, hs - todo);
      while todo != {}
        invariant todo <= hs && tracked == Withdrawn(old(tracked), table, hs - todo)
        decreases todo
      {
        var h := Pick(todo);
        var k := Cell(table, handles[h].near);
        WithdrawOne(old(tracked), table, hs - todo, h, k);
        assert hs - (todo - {h}) == (hs - todo) + {h};
        todo, tracked := todo - {h}, tracked[k := tracked[k] - {h}];
      }
      assert hs - todo == hs;
    }
  }

  /** A new handle of this task, for this number and file, is among the task's handles and in its table's
      set for the number; every other handle and set is as before. */
  ghost predicate Adds(s: State, s': State, t: Id, near: Id, file: Id, h: Id) {
    && t in s.tasks && s'.tasks == s.tasks && s'.closes == s.closes && s'.legacy == s.legacy
    && h !in s.handles && s'.handles == s.handles[h := Handle(t, near, file, true)] && h in FdHandles(s', t)
    && TracksOneMore(s.tracked, s'.tracked, Cell(s.tasks[t].py, near), h)
  }

  lemma {:induction false} MadeIs(s: State, t: Id, near: Id, file: Id)
    requires t in s.tasks && s.next !in s.handles
    ensures Adds(s, FdTables.MakeHandle(s, t, near, file), t, near, file, s.next)
  {
  }

  lemma {:induction false} LastMeansNoOther(s: State, h: Id)
    requires Current(s, h)
    ensures LastHandle(s, h) <==> forall g :: g in s.tracked[CellOf(s, h)] ==> g == h
  {
    LastIs(s.tracked[CellOf(s, h)], h);
  }

  /** What a table with a parent can inherit. */
  function PassedOn(inherited: set<Legacy>, tracked: map<Cell, set<Id>>, from: Id, to: Id): (r: set<Legacy>)
    ensures forall l :: l in r <==>
              && l.table == to
              && (Legacy(from, l.handle) in inherited
                  || exists k :: k in tracked && k.table == from && l.handle in tracked[k])
  {
    (set l | l in inherited && l.table == from :: Legacy(to, l.handle))
    + (set k, h | k in tracked && k.table == from && h in tracked[k] :: Legacy(to, h))
  }

  lemma {:induction false} CloneCopiedIs(s: State, t: Id, inherited: set<Legacy>)
    requires CanClone(s, t)
    ensures var s' := CloneCopied(s, t);
            && s' == s.(tasks := s.tasks[s.next := Task(s.next, Stable, [], 0, false)], legacy := s'.legacy,
                        tables := s'.tables, kernel := s'.kernel, owner := s'.owner, next := s.next + 1)
            && s'.legacy == s.legacy + PassedOn(s.legacy, s.tracked, s.tasks[t].py, s.next)
            && (s.legacy <= inherited ==>
                 s'.legacy <= inherited + PassedOn(inherited, s.tracked, s.tasks[t].py, s.next))
  {
    hide CopyOf, Leak;
    var from, to := s.tasks[t].py, s.next;
    assert CloneCopied(s, t).legacy == s.legacy + PassedOn(s.legacy, s.tracked, from, to);
    hide *;
    if s.legacy <= inherited {
      forall l | l in PassedOn(s.legacy, s.tracked, from, to) ensures l in PassedOn(inherited, s.tracked, from, to) {
        assert Legacy(from, l.handle) in s.legacy ==> Legacy(from, l.handle) in inherited;
      }
    }
  }

  function Redirected(closes: map<Id, Close>, t: Id, to: Id): (r: map<Id, Close>)
    ensures r.Keys == closes.Keys
    ensures forall c :: c in closes ==>
              r[c] == if closes[c].task == t && !closes[c].queued then closes[c].(dest := to) else closes[c]
  {
    map c | c in closes :: if closes[c].task == t && !closes[c].queued then closes[c].(dest := to) else closes[c]
  }

  lemma {:induction false} StartUnshareIs(s: State, t: Id)
    requires CanStartUnshare(s, t)
    ensures var s', task := StartUnshare(s, t), s.tasks[t];
            && s'.tasks ==
               s.tasks[t := Task(s.next, Unsharing(task.py, |task.pipe|), task.pipe + [Unshare], task.done, task.dead)]
            && s'.tracked == s.tracked + FreshTable(s, t, s.next) && s'.handles == s.handles
            && s'.closes == Redirected(s.closes, t, s.next)
            && s'.legacy == s.legacy && s'.arrivals == s.arrivals && s'.next == s.next + 1
  {
    hide FreshTable, Claims, CopyOf, Leak;
  }

  lemma {:induction false} SweptAll(tracked: map<Cell, set<Id>>, table: Id, todo: set<Cell>)
    requires forall k :: k in tracked && k.table == table ==> k in todo
    ensures Swept(tracked, table, todo) == tracked
  {
  }

  lemma {:induction false} FreshTask(s: State)
    requires Inv(s)
    ensures s.next !in s.tasks
  {
    assert FreshOk(s);
  }

  lemma {:induction false} InvFresh(s: State)
    requires Inv(s)
    ensures forall c :: c in s.closes ==> c < s.next
    ensures s.next !in s.handles
  {
    assert FreshOk(s);
  }

  /** A table's dictionary without some handles. */
  function Withdrawn(tracked: map<Cell, set<Id>>, table: Id, hs: set<Id>): map<Cell, set<Id>> {
    map k | k in tracked :: if k.table == table then tracked[k] - hs else tracked[k]
  }

  lemma {:induction false} WithdrawOne(tracked: map<Cell, set<Id>>, table: Id, hs: set<Id>, h: Id, k: Cell)
    requires k in tracked && k.table == table && forall j :: j in tracked && j.table == table && j != k ==>
               h !in tracked[j]
    ensures Withdrawn(tracked, table, hs)[k := Withdrawn(tracked, table, hs)[k] - {h}] == Withdrawn(tracked, table,
            hs + {h})
  {
    var a, b := Withdrawn(tracked, table, hs), Withdrawn(tracked, table, hs + {h});
    assert a[k] - {h} == b[k];
    forall j | j in tracked && j != k ensures a[j] == b[j] {
      if j.table == table { assert tracked[j] - hs == tracked[j] - (hs + {h}); }
    }
  }

  lemma {:induction false} UnsharedIs(s: State, t: Id)
    requires CanOnUnshared(s, t)
    ensures OnUnshared(s, t) ==
            s.(tasks := s.tasks[t := Take(s.tasks[t], 0)], tracked :=
                Withdrawn(s.tracked, s.tasks[t].phase.was, FdHandles(s, t)))
  {
  }

  lemma {:induction false} InOldTable(s: State, t: Id)
    requires Inv(s) && CanOnUnshared(s, t)
    ensures forall h :: h in FdHandles(s, t) ==>
              h in s.handles && Cell(s.tasks[t].phase.was, s.handles[h].near) in s.tracked
    ensures forall h, j :: h in FdHandles(s, t) && j in s.tracked && h in s.tracked[j] ==> j.near == s.handles[h].near
  {
    forall h | h in FdHandles(s, t) ensures Cell(s.tasks[t].phase.was, s.handles[h].near) in s.tracked {
      HandleIsWhereExpected(s, h);
    }
    assert TrackedOk(s);
    hide Inv;
  }

  /** The table's dictionary without the numbers that have no handles, `todo` still to be looked at. */
  function Swept(tracked: map<Cell, set<Id>>, table: Id, todo: set<Cell>): map<Cell, set<Id>> {
    map k | k in tracked && (k.table == table && k !in todo ==> tracked[k] != {}) :: tracked[k]
  }

  lemma {:induction false} SweptOne(tracked: map<Cell, set<Id>>, table: Id, todo: set<Cell>, k: Cell)
    requires k in todo && k in Swept(tracked, table, todo) && k.table == table
    ensures k in tracked && Swept(tracked, table, todo)[k] == tracked[k]
    ensures Swept(tracked, table, todo - {k}) == if tracked[k] == {} then Swept(tracked, table, todo) - {k}
            else Swept(tracked, table, todo)
  {
  }

  lemma {:induction false} SameFreshTable(s: State, t: Id, to: Id, m: map<Cell, set<Id>>)
    requires forall k :: k in m ==> k.table == to && m[k] != {}
    requires forall k, h :: k in m ==> (h in m[k] <==> h in FdHandles(s, t) && s.handles[h].near == k.near)
    requires forall h :: h in FdHandles(s, t) ==> Cell(to, s.handles[h].near) in m
    ensures m == FreshTable(s, t, to)
  {
    hide FreshTable, FdHandles;
    var n := FreshTable(s, t, to);
    forall k | k in m ensures k in n && m[k] == n[k] { FreshCell(s, t, to, m, n, k); }
    forall k | k in n ensures k in m { FreshCell(s, t, to, n, m, k); }
  }

  lemma {:induction false} FreshCell(s: State, t: Id, to: Id, m: map<Cell, set<Id>>, n: map<Cell, set<Id>>, k: Cell)
    requires k in m && k.table == to && m[k] != {}
    requires forall h :: h in m[k] <==> h in FdHandles(s, t) && s.handles[h].near == k.near
    requires forall h :: h in FdHandles(s, t) ==> Cell(to, s.handles[h].near) in n
    requires forall j, h :: j in n ==> (h in n[j] <==> h in FdHandles(s, t) && s.handles[h].near == j.near)
    ensures k in n && m[k] == n[k]
  {
    var h := Member(m[k]);
    assert Cell(to, s.handles[h].near) == k;
    var a, b := m[k], n[k];
    assert forall g :: g in a <==> g in b;
    assert a == b;
  }

  lemma {:induction false} Member<T>(s: set<T>) returns (x: T)
    requires s != {}
    ensures x in s
  {
    x :| x in s;
  }

  lemma {:induction false} OtherCloseSafe(s: State, t: Id, near: Id, n: Id)
    requires Inv(s) && t in s.tasks && MayClose(s, t, n)
    ensures MayClose(Initiate(s, t, near, false, None), t, n)
  {
    assert TablesOk(s);
    hide Inv;
  }

  lemma {:induction false} MovedIsNotLast(s: State, h: Id, t: Id)
    requires Inv(s) && CanShare(s, h, t)
    ensures var s' := Share(s, h, t); Current(s', h) && h in s'.tracked[CellOf(s', h)] && !LastHandle(s', h)
  {
    HandleIsWhereExpected(s, h);
    assert h < s.next;
    hide Inv;
    var s' := Share(s, h, t);
    assert s.next in s'.tracked[CellOf(s', h)] - {h};
  }
}
