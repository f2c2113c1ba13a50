/** The guard of `FdRuns` is exact: after a close that was started without it, guarded steps alone lead
    to a valid handle whose number is closed. */
module FdExact {
  import opened Prelude
  import opened FdTables
  import opened FdInvariant
  import opened FdSteps
  import opened FdSafety
  import opened FdGuard
  import opened FdLive
  import opened FdRuns

  // ---------------------------------------------------------------- running a task's calls

  ghost predicate NewIds(s: State) {
    (forall o :: o in s.arrivals ==> o < s.next) && (forall h :: h in s.handles ==> h < s.next)
    && (forall t :: t in s.tasks ==> t < s.next) && (forall c :: c in s.closes ==> c < s.next)
  }

  /** Only calls of task `v`, in table `table`, have run; no open has taken number `n`. */
  ghost predicate Calm(s: State, s': State, v: Id, table: Id, n: Id) {
    && s'.tracked == s.tracked && s'.handles == s.handles && s'.reserved == s.reserved && v in s.tasks && v in s'.tasks
    && (forall x :: x in s.tasks && x != v ==> x in s'.tasks && s'.tasks[x] == s.tasks[x])
    && s'.tasks[v] == s.tasks[v].(pipe := s'.tasks[v].pipe, done := s'.tasks[v].done)
    && s.tasks[v].done <= s'.tasks[v].done && |s'.tasks[v].pipe| == |s.tasks[v].pipe|
    && (forall i :: s'.tasks[v].done <= i < |s.tasks[v].pipe| ==> s'.tasks[v].pipe[i] == s.tasks[v].pipe[i])
    && (forall k :: k in s'.kernel && k !in s.kernel ==> k.table == table && k.near != n)
    && (forall c :: c in s.closes && (s.closes[c].task != v || !s.closes[c].queued) ==>
         c in s'.closes && s'.closes[c] == s.closes[c])
    && (forall c :: c in s'.closes ==> c in s.closes && s'.closes[c] == s.closes[c])
    && (forall o :: o in s.arrivals ==> o in s'.arrivals && s'.arrivals[o] == s.arrivals[o])
  }

  lemma {:induction false} CalmOn(s: State, t: State, u: State, v: Id, table: Id, n: Id)
    requires Calm(s, t, v, table, n) && Calm(t, u, v, table, n)
    ensures Calm(s, u, v, table, n)
  {
  }

  lemma {:induction false} Bound(cells: set<Cell>) returns (b: Id)
    ensures forall k :: k in cells ==> k.near < b
    decreases cells
  {
    b := 0;
    if k :| k in cells {
      var c := Bound(cells - {k});
      b := if c <= k.near then k.near + 1 else c;
    }
  }

  lemma {:induction false} FreeNumber(s: State, table: Id, n: Id) returns (m: Id)
    ensures m != n && Cell(table, m) !in s.kernel
  {
    var b := Bound(s.kernel.Keys);
    m := if b == n then b + 1 else b;
    assert forall k :: k in s.kernel ==> k in s.kernel.Keys;
  }

  /** The next call of a working task can run, in its table. */
  ghost predicate Next(s: State, v: Id, table: Id) {
    && NewIds(s) && Ready(s, v) && PipeOk(s, v, s.tasks[v]) && NextCall(s, v) != Unshare
        && KernelOf(s.tasks[v]) == table
  }

  lemma {:induction false} OpenNext(s: State, v: Id, table: Id, n: Id, m: Id)
    requires Next(s, v, table) && NextCall(s, v) == Open && m != n && Cell(table, m) !in s.kernel
    ensures CanRunOpen(s, v, m)
    ensures var s' := RunOpen(s, v, m);
            Reaches(s, s') && Calm(s, s', v, table, n) && NewIds(s') && PipeOk(s', v, s'.tasks[v])
                && s'.tasks[v].done == s.tasks[v].done + 1
  {
    OpenedPipe(s, v, m);
    hide PipeOk, Reaches;
    Taken(s, DoRunOpen(v, m));
  }

  lemma {:induction false} OpenedPipe(s: State, v: Id, m: Id)
    requires NewIds(s) && CanRunOpen(s, v, m) && PipeOk(s, v, s.tasks[v])
    ensures PipeOk(RunOpen(s, v, m), v, RunOpen(s, v, m).tasks[v])
  {
    var s', task := RunOpen(s, v, m), s.tasks[v];
    EntriesIn(s, v, task);
    assert Opened(s.next) !in task.pipe;
    RanPipe(s, s', v, task, Opened(s.next));
  }

  lemma {:induction false} CloseNext(s: State, v: Id, table: Id, n: Id)
    requires Next(s, v, table) && NextCall(s, v).Closing?
    ensures CanRunClose(s, v)
    ensures var s' := RunClose(s, v);
            Reaches(s, s') && Calm(s, s', v, table, n) && NewIds(s') && PipeOk(s', v, s'.tasks[v])
                && s'.tasks[v].done == s.tasks[v].done + 1
    ensures var s', c := RunClose(s, v), NextCall(s, v).c;
            s'.kernel == s.kernel - {Cell(table, s.closes[c].near)}
  {
    var task := s.tasks[v];
    assert EntryOk(s, v, task, task.done);
    var s', c := RunClose(s, v), NextCall(s, v).c;
    EntriesIn(s, v, task);
    RanPipe(s, s', v, task, Closed(s.closes[c].near, s.closes[c].origin));
    hide PipeOk, Reaches;
    Taken(s, DoRunClose(v));
  }

  lemma {:induction false} RunNext(s: State, v: Id, table: Id, n: Id) returns (s': State)
    requires Next(s, v, table)
    ensures Reaches(s, s') && Calm(s, s', v, table, n) && NewIds(s') && PipeOk(s', v, s'.tasks[v])
    ensures s'.tasks[v].done == s.tasks[v].done + 1
  {
    assert EntryOk(s, v, s.tasks[v], s.tasks[v].done);
    if NextCall(s, v) == Open {
      var m := FreeNumber(s, table, n);
      OpenNext(s, v, table, n, m);
      s' := RunOpen(s, v, m);
    } else {
      CloseNext(s, v, table, n);
      s' := RunClose(s, v);
    }
  }

  /** The calls before position `j` can run one after another. */
  ghost predicate Drainable(s: State, v: Id, j: nat, table: Id) {
    && NewIds(s) && v in s.tasks && !s.tasks[v].dead && PipeOk(s, v, s.tasks[v])
        && s.tasks[v].done <= j <= |s.tasks[v].pipe|
    && forall i :: s.tasks[v].done <= i < j ==> s.tasks[v].pipe[i] != Unshare && TableAt(s.tasks[v], i) == table
  }

  lemma {:induction false} DrainTo(s: State, v: Id, j: nat, table: Id, n: Id) returns (s': State)
    requires Drainable(s, v, j, table)
    ensures Reaches(s, s') && Calm(s, s', v, table, n) && NewIds(s') && PipeOk(s', v, s'.tasks[v])
            && s'.tasks[v].done == j
    decreases j - s.tasks[v].done
  {
    if s.tasks[v].done == j {
      s' := s;
      Here(s);
    } else {
      var s1 := RunNext(s, v, table, n);
      hide PipeOk, Reaches;
      s' := DrainTo(s1, v, j, table, n);
      Onward(s, s1, s');
      CalmOn(s, s1, s', v, table, n);
    }
  }

  // ---------------------------------------------------------------- the unshare runs too late

  ghost predicate Worker(s: State, u: Id, f: Id) {
    && NewIds(s) && u in s.tasks && s.tasks[u].py == f && !s.tasks[u].dead && PipeOk(s, u, s.tasks[u])
    && forall g :: g in s.reserved ==> s.reserved[g] != f
  }

  /** The unshare of task `u` out of `was` into `f` has still to run. */
  ghost predicate Pending(s: State, u: Id, f: Id, was: Id) {
    && Worker(s, u, f) && f != was && s.tasks[u].phase.Unsharing? && s.tasks[u].phase.was == was
    && s.tasks[u].done <= s.tasks[u].phase.pos && forall k :: k in s.kernel ==> k.table != f
  }

  /** The new table has the number, without handles or with a close on its way. */
  ghost predicate Claim(s: State, u: Id, k: Cell, c: Option<Id>) {
    match c
    case None => k in s.tracked && s.tracked[k] == {}
    case Some(c) =>
      && k !in s.tracked && c in s.closes && s.closes[c].task == u && s.closes[c].near == k.near
          && s.closes[c].dest == k.table
      && (s.closes[c].queued ==> u in s.tasks && Closing(c) in s.tasks[u].pipe)
  }

  lemma {:induction false} PendingFrame(s: State, s': State, t: Id, u: Id, f: Id, was: Id, n: Id, c: Option<Id>)
    requires Pending(s, u, f, was) && Claim(s, u, Cell(f, n), c) && t != u && Calm(s, s', t, was, n) && NewIds(s')
    ensures Pending(s', u, f, was) && Claim(s', u, Cell(f, n), c)
  {
    PipeFrame(s, s', u, s.tasks[u]);
    hide PipeOk;
  }

  /** The close of the number runs in the old table. */
  lemma {:induction false} ClosesFirst(s: State, t: Id, j: nat, u: Id, f: Id, was: Id, n: Id, c: Option<Id>)
      returns (s': State)
    requires Pending(s, u, f, was) && Claim(s, u, Cell(f, n), c) && t != u && Drainable(s, t, j, was)
    requires j < |s.tasks[t].pipe| && s.tasks[t].pipe[j].Closing? && TableAt(s.tasks[t], j) == was
    requires s.tasks[t].pipe[j].c in s.closes && s.closes[s.tasks[t].pipe[j].c].near == n
    ensures Reaches(s, s') && Pending(s', u, f, was) && Claim(s', u, Cell(f, n), c) && Cell(was, n) !in s'.kernel
  {
    hide PipeOk, Reaches, Pending, Claim;
    var s1 := DrainTo(s, t, j, was, n);
    PendingFrame(s, s1, t, u, f, was, n, c);
    assert Next(s1, t, was);
    CloseNext(s1, t, was, n);
    assert NextCall(s1, t).c in s1.closes;
    s' := RunClose(s1, t);
    PendingFrame(s1, s', t, u, f, was, n, c);
    Onward(s, s1, s');
  }

  /** The unshare has run, without the number. */
  ghost predicate Missed(s: State, u: Id, f: Id, was: Id, n: Id) {
    && Worker(s, u, f) && f != was && s.tasks[u].phase.Unsharing? && s.tasks[u].phase.was == was
    && s.tasks[u].phase.pos < s.tasks[u].done && Cell(f, n) !in s.kernel
  }

  lemma {:induction false} ToUnshare(s: State, u: Id, f: Id, was: Id)
    requires Pending(s, u, f, was)
    ensures Drainable(s, u, s.tasks[u].phase.pos, was)
  {
    var task := s.tasks[u];
    forall i | task.done <= i < task.phase.pos ensures task.pipe[i] != Unshare {
      assert EntryOk(s, u, task, i);
    }
  }

  lemma {:induction false} CopyMisses(s: State, u: Id, f: Id, was: Id, n: Id, c: Option<Id>)
    requires Pending(s, u, f, was) && Claim(s, u, Cell(f, n), c) && Cell(was, n) !in s.kernel
             && s.tasks[u].done == s.tasks[u].phase.pos
    ensures CanRunUnshare(s, u)
    ensures var s' := RunUnshare(s, u); Reaches(s, s') && Missed(s', u, f, was, n) && Claim(s', u, Cell(f, n), c)
  {
    hide CopyOf, Reaches;
    var task := s.tasks[u];
    assert EntryOk(s, u, task, task.done);
    EntriesIn(s, u, task);
    var s' := RunUnshare(s, u);
    RanPipe(s, s', u, task, Unshare);
    RanKeepsEntries(task, Unshare);
    hide PipeOk;
    Taken(s, DoRunUnshare(u));
  }

  lemma {:induction false} UnshareMisses(s: State, u: Id, f: Id, was: Id, n: Id, c: Option<Id>) returns (s': State)
    requires Pending(s, u, f, was) && Claim(s, u, Cell(f, n), c) && Cell(was, n) !in s.kernel
    ensures Reaches(s, s') && Missed(s', u, f, was, n) && Claim(s', u, Cell(f, n), c)
  {
    ToUnshare(s, u, f, was);
    hide PipeOk, Reaches;
    var s1 := DrainTo(s, u, s.tasks[u].phase.pos, was, n);
    StillClaimed(s, s1, u, f, was, n, c);
    CopyMisses(s1, u, f, was, n, c);
    s' := RunUnshare(s1, u);
    Onward(s, s1, s');
  }

  /** The task's own calls before the unshare do not touch the claim. */
  lemma {:induction false} StillClaimed(s: State, s': State, u: Id, f: Id, was: Id, n: Id, c: Option<Id>)
    requires Pending(s, u, f, was) && Claim(s, u, Cell(f, n), c) && Calm(s, s', u, was, n)
    requires s'.tasks[u].done == s.tasks[u].phase.pos && PipeOk(s', u, s'.tasks[u])
    ensures Claim(s', u, Cell(f, n), c)
  {
    if c.Some? && s.closes[c.value].queued {
      var task := s.tasks[u];
      var i :| 0 <= i < |task.pipe| && task.pipe[i] == Closing(c.value);
      assert EntryOk(s, u, task, i);
      assert s'.tasks[u].pipe[i] == Closing(c.value);
      assert EntryOk(s', u, s'.tasks[u], i);
      assert c.value in s'.closes;
    }
  }

  // ---------------------------------------------------------------- the task arrives in its table

  /** The results up to the unshare's are handled. */
  ghost predicate Landed(s: State, u: Id, f: Id, n: Id) {
    Worker(s, u, f) && s.tasks[u].phase.Stable? && Cell(f, n) !in s.kernel
  }

  /** Taking the first result off the pipe, when nothing that matters changes with it. */
  lemma {:induction false} TakesResult(s: State, s': State, u: Id, f: Id, was: Id, n: Id, c: Option<Id>)
    requires Missed(s, u, f, was, n) && Claim(s, u, Cell(f, n), c) && s.tasks[u].phase.pos > 0
    requires s'.tasks == s.tasks[u := Take(s.tasks[u], 0)] && NewIds(s') && s'.closes == s.closes
             && s'.tracked == s.tracked
    requires s'.kernel == s.kernel && s'.reserved == s.reserved
    requires forall o :: o in s.arrivals && s.tasks[u].pipe[0] != Opened(o) ==>
               o in s'.arrivals && s'.arrivals[o] == s.arrivals[o]
    ensures Missed(s', u, f, was, n) && Claim(s', u, Cell(f, n), c) && s'.tasks[u].phase.pos == s.tasks[u].phase.pos - 1
  {
    var task := s.tasks[u];
    assert EntryOk(s, u, task, 0);
    EntriesIn(s, u, task);
    TakePipe(s, s', u, task, 0);
    TakeKeepsEntries(task, 0);
    hide PipeOk;
  }

  lemma {:induction false} ResultAtHand(s: State, u: Id)
    requires u in s.tasks && PipeOk(s, u, s.tasks[u]) && 0 < s.tasks[u].done
    requires s.tasks[u].phase.Unsharing? && s.tasks[u].phase.pos > 0
    ensures HasResult(s, u) && (s.tasks[u].pipe[0].Opened? || s.tasks[u].pipe[0].Closed?)
    ensures s.tasks[u].pipe[0].Opened? ==> s.tasks[u].pipe[0].o in s.arrivals
  {
    assert EntryOk(s, u, s.tasks[u], 0);
  }

  lemma {:induction false} OpenedResult(s: State, u: Id, f: Id, was: Id, n: Id, c: Option<Id>)
    requires Missed(s, u, f, was, n) && Claim(s, u, Cell(f, n), c) && s.tasks[u].phase.pos > 0 && CanSettle(s, u)
    ensures var s' := OnOpened(s, u);
            && Reaches(s, s') && Missed(s', u, f, was, n) && Claim(s', u, Cell(f, n), c)
            && s'.tasks[u].phase.pos == s.tasks[u].phase.pos - 1
  {
    hide Reaches, PipeOk, Claim, Take;
    Taken(s, DoOnOpened(u));
    TakesResult(s, OnOpened(s, u), u, f, was, n, c);
  }

  lemma {:induction false} ClosedResult(s: State, u: Id, f: Id, was: Id, n: Id, c: Option<Id>)
    requires Missed(s, u, f, was, n) && Claim(s, u, Cell(f, n), c) && s.tasks[u].phase.pos > 0 && CanOnClosed(s, u)
    ensures var s' := OnClosed(s, u);
            && Reaches(s, s') && Missed(s', u, f, was, n) && Claim(s', u, Cell(f, n), c)
            && s'.tasks[u].phase.pos == s.tasks[u].phase.pos - 1
  {
    hide Reaches, PipeOk, Claim, Take;
    Taken(s, DoOnClosed(u));
    TakesResult(s, OnClosed(s, u), u, f, was, n, c);
  }

  lemma {:induction false} OneResult(s: State, u: Id, f: Id, was: Id, n: Id, c: Option<Id>) returns (s': State)
    requires Missed(s, u, f, was, n) && Claim(s, u, Cell(f, n), c) && s.tasks[u].phase.pos > 0
    ensures Reaches(s, s') && Missed(s', u, f, was, n) && Claim(s', u, Cell(f, n), c)
    ensures s'.tasks[u].phase.pos == s.tasks[u].phase.pos - 1
  {
    hide Reaches, PipeOk, Claim, Take, OnOpened, OnClosed;
    ResultAtHand(s, u);
    if s.tasks[u].pipe[0].Opened? {
      OpenedResult(s, u, f, was, n, c);
      s' := OnOpened(s, u);
    } else {
      ClosedResult(s, u, f, was, n, c);
      s' := OnClosed(s, u);
    }
  }

  lemma {:induction false} LastResult(s: State, u: Id, f: Id, was: Id, n: Id, c: Option<Id>)
    requires Missed(s, u, f, was, n) && Claim(s, u, Cell(f, n), c) && s.tasks[u].phase.pos == 0
    ensures CanOnUnshared(s, u)
    ensures var s' := OnUnshared(s, u); Reaches(s, s') && Landed(s', u, f, n) && Claim(s', u, Cell(f, n), c)
  {
    hide Reaches, FdHandles;
    var s', task := OnUnshared(s, u), s.tasks[u];
    assert EntryOk(s, u, task, 0);
    EntriesIn(s, u, task);
    TakePipe(s, s', u, task, 0);
    TakeKeepsEntries(task, 0);
    hide PipeOk;
    Taken(s, DoOnUnshared(u));
  }

  lemma {:induction false} Lands(s: State, u: Id, f: Id, was: Id, n: Id, c: Option<Id>) returns (s': State)
    requires Missed(s, u, f, was, n) && Claim(s, u, Cell(f, n), c)
    ensures Reaches(s, s') && Landed(s', u, f, n) && Claim(s', u, Cell(f, n), c)
    decreases s.tasks[u].phase.pos
  {
    hide PipeOk, Reaches, Claim;
    if s.tasks[u].phase.pos == 0 {
      LastResult(s, u, f, was, n, c);
      s' := OnUnshared(s, u);
    } else {
      var s1 := OneResult(s, u, f, was, n, c);
      s' := Lands(s1, u, f, was, n, c);
      Onward(s, s1, s');
    }
  }

  /** If the number has no handles, it is collected in the new table. */
  lemma {:induction false} Collects(s: State, u: Id, f: Id, n: Id)
    requires Landed(s, u, f, n) && Claim(s, u, Cell(f, n), None)
    ensures CanGc(s, u, n)
    ensures var s' := Gc(s, u, n); Reaches(s, s') && Landed(s', u, f, n) && Claim(s', u, Cell(f, n), Some(s.next))
  {
    hide Reaches;
    var s' := Gc(s, u, n);
    PipeFrame(s, s', u, s.tasks[u]);
    hide PipeOk;
    Taken(s, DoGc(u, n));
  }

  // ---------------------------------------------------------------- and the number is opened anew

  /** Task `v` has opened the number and holds it by handle `h`. */
  ghost predicate Held(s: State, v: Id, h: Id, f: Id, n: Id) {
    && v in s.tasks && s.tasks[v].py == f && s.tasks[v].phase.Stable?
    && h in s.handles && s.handles[h].valid && s.handles[h].task == v && s.handles[h].near == n
  }

  lemma {:induction false} Clones(s: State, u: Id, f: Id, n: Id, c: Id)
    requires Landed(s, u, f, n) && Claim(s, u, Cell(f, n), Some(c))
    ensures CanClone(s, u)
    ensures var s', v := SubmitOpen(CloneShared(s, u), s.next), s.next;
            && Reaches(s, s') && v != u && Landed(s', u, f, n) && Claim(s', u, Cell(f, n), Some(c))
            && v in s'.tasks && s'.tasks[v] == Task(f, Stable, [Open], 0, false)
  {
    hide Reaches;
    var s1, v := CloneShared(s, u), s.next;
    var s' := SubmitOpen(s1, v);
    assert [] + [Open] == [Open];
    PipeFrame(s, s', u, s.tasks[u]);
    hide PipeOk;
    Taken(s, DoCloneShared(u));
    Taken(s1, DoSubmitOpen(v));
    Onward(s, s1, s');
  }

  lemma {:induction false} OpensAnew(s: State, u: Id, v: Id, f: Id, n: Id, c: Id)
    requires Landed(s, u, f, n) && Claim(s, u, Cell(f, n), Some(c)) && v != u
    requires v in s.tasks && s.tasks[v] == Task(f, Stable, [Open], 0, false)
    ensures CanRunOpen(s, v, n)
    ensures var s' := RunOpen(s, v, n);
            && Reaches(s, s') && Worker(s', u, f) && s'.tasks[u] == s.tasks[u] && Claim(s', u, Cell(f, n), Some(c))
            && v in s'.tasks && s'.tasks[v] == Task(f, Stable, [Opened(s.next)], 1, false)
            && s.next in s'.arrivals && s'.arrivals[s.next] == Arrival(v, Cell(f, n), s.next)
  {
    hide Reaches;
    var s' := RunOpen(s, v, n);
    assert [Open][0 := Opened(s.next)] == [Opened(s.next)];
    PipeFrame(s, s', u, s.tasks[u]);
    hide PipeOk;
    Taken(s, DoRunOpen(v, n));
  }

  lemma {:induction false} GetsHandle(s: State, u: Id, v: Id, f: Id, n: Id, c: Id, o: Id)
    requires Worker(s, u, f) && s.tasks[u].phase.Stable? && Claim(s, u, Cell(f, n), Some(c)) && v != u
    requires v in s.tasks && s.tasks[v] == Task(f, Stable, [Opened(o)], 1, false)
    requires o in s.arrivals && s.arrivals[o] == Arrival(v, Cell(f, n), o)
    ensures CanSettle(s, v)
    ensures var s' := OnOpened(s, v);
            && Reaches(s, s') && Worker(s', u, f) && s'.tasks[u] == s.tasks[u] && Held(s', v, s.next, f, n)
            && c in s'.closes && s'.closes[c] == s.closes[c]
  {
    hide Reaches;
    var s' := OnOpened(s, v);
    assert forall i :: 0 <= i < |s.tasks[u].pipe| && s.tasks[u].pipe[i].Opened? ==> s.tasks[u].pipe[i].o != o by {
      forall i | 0 <= i < |s.tasks[u].pipe| && s.tasks[u].pipe[i].Opened? ensures s.tasks[u].pipe[i].o != o {
        assert EntryOk(s, u, s.tasks[u], i);
      }
    }
    PipeFrame(s, s', u, s.tasks[u]);
    hide PipeOk;
    Taken(s, DoOnOpened(v));
  }

  // ---------------------------------------------------------------- and closed again

  lemma {:induction false} Submits(s: State, u: Id, v: Id, h: Id, f: Id, n: Id, c: Id)
    requires Worker(s, u, f) && s.tasks[u].phase.Stable? && Held(s, v, h, f, n) && v != u
    requires c in s.closes && s.closes[c].task == u && s.closes[c].near == n && s.closes[c].dest == f
             && !s.closes[c].queued
    ensures CanSubmitClose(s, c)
    ensures var s' := SubmitClose(s, c);
            && Reaches(s, s') && Worker(s', u, f) && s'.tasks[u].phase.Stable? && Held(s', v, h, f, n)
            && c in s'.closes && s'.closes[c].near == n && Closing(c) in s'.tasks[u].pipe
  {
    hide Reaches;
    var s', task := SubmitClose(s, c), s.tasks[u];
    forall i | 0 <= i < |task.pipe| ensures task.pipe[i] != Closing(c) {
      assert EntryOk(s, u, task, i);
    }
    PipeFrame(s, s', u, task);
    PushPipe(s', u, task, Closing(c));
    PushKeepsEntries(task, Closing(c));
    hide PipeOk;
    Taken(s, DoSubmitClose(c));
  }

  lemma {:induction false} ClosesAgain(s: State, u: Id, v: Id, h: Id, f: Id, n: Id, c: Id) returns (s': State)
    requires Worker(s, u, f) && s.tasks[u].phase.Stable? && Held(s, v, h, f, n) && v != u
    requires c in s.closes && s.closes[c].near == n && Closing(c) in s.tasks[u].pipe
    ensures Reaches(s, s') && !Safe(s')
  {
    var task := s.tasks[u];
    var j :| 0 <= j < |task.pipe| && task.pipe[j] == Closing(c);
    assert EntryOk(s, u, task, j);
    forall i | task.done <= i < j ensures task.pipe[i] != Unshare {
      assert EntryOk(s, u, task, i);
    }
    hide PipeOk, Reaches;
    var s1 := DrainTo(s, u, j, f, n);
    assert Next(s1, u, f);
    CloseNext(s1, u, f, n);
    s' := RunClose(s1, u);
    Onward(s, s1, s');
    assert h in s'.handles && s'.handles[h].valid && s'.tasks[v] == s.tasks[v];
  }

  /** A task that is in its table, with a number there that it does not have. */
  lemma {:induction false} LandedEndsBadly(s: State, u: Id, f: Id, n: Id, c: Option<Id>) returns (bad: State)
    requires Landed(s, u, f, n) && Claim(s, u, Cell(f, n), c)
    ensures Reaches(s, bad) && !Safe(bad)
  {
    hide *;
    if c == None {
      Collects(s, u, f, n);
      bad := EndsBadly(Gc(s, u, n), u, f, n, s.next);
      Onward(s, Gc(s, u, n), bad);
    } else {
      bad := EndsBadly(s, u, f, n, c.value);
    }
  }

  lemma {:induction false} MissedEndsBadly(s: State, u: Id, f: Id, was: Id, n: Id, c: Option<Id>) returns (bad: State)
    requires Missed(s, u, f, was, n) && Claim(s, u, Cell(f, n), c)
    ensures Reaches(s, bad) && !Safe(bad)
  {
    hide *;
    var d := Lands(s, u, f, was, n, c);
    bad := LandedEndsBadly(d, u, f, n, c);
    Onward(s, d, bad);
  }

  /** From a landed task with a close of a number it does not have, to a handle closed from under
      its task. */
  lemma {:induction false} EndsBadly(s: State, u: Id, f: Id, n: Id, c: Id) returns (bad: State)
    requires Landed(s, u, f, n) && Claim(s, u, Cell(f, n), Some(c))
    ensures Reaches(s, bad) && !Safe(bad)
  {
    Clones(s, u, f, n, c);
    var v, a := s.next, SubmitOpen(CloneShared(s, u), s.next);
    OpensAnew(a, u, v, f, n, c);
    var b := RunOpen(a, v, n);
    assert a.tasks[u].phase.Stable?;
    GetsHandle(b, u, v, f, n, c, a.next);
    var d := OnOpened(b, v);
    assert Closing(c) in b.tasks[u].pipe || !b.closes[c].queued;
    hide *;
    Onward(s, a, b);
    Onward(s, b, d);
    bad := EndsBadlyFrom(d, u, v, b.next, f, n, c);
    Onward(s, d, bad);
  }

  lemma {:induction false} EndsBadlyFrom(s: State, u: Id, v: Id, h: Id, f: Id, n: Id, c: Id) returns (bad: State)
    requires Worker(s, u, f) && s.tasks[u].phase.Stable? && Held(s, v, h, f, n) && v != u
    requires c in s.closes && s.closes[c].task == u && s.closes[c].near == n && s.closes[c].dest == f
    requires Closing(c) in s.tasks[u].pipe || !s.closes[c].queued
    ensures Reaches(s, bad) && !Safe(bad)
  {
    hide *;
    if s.closes[c].queued {
      bad := ClosesAgain(s, u, v, h, f, n, c);
    } else {
      Submits(s, u, v, h, f, n, c);
      bad := ClosesAgain(SubmitClose(s, c), u, v, h, f, n, c);
      Onward(s, SubmitClose(s, c), bad);
    }
  }

  /** Once the close of a number that an unshare still has is in its task's pipe, all is lost. */
  lemma {:induction false} TooEarly(s: State, t: Id, j: nat, u: Id, f: Id, was: Id, n: Id, c: Option<Id>)
      returns (bad: State)
    requires Pending(s, u, f, was) && Claim(s, u, Cell(f, n), c) && t != u && Drainable(s, t, j, was)
    requires j < |s.tasks[t].pipe| && s.tasks[t].pipe[j].Closing? && TableAt(s.tasks[t], j) == was
    requires s.tasks[t].pipe[j].c in s.closes && s.closes[s.tasks[t].pipe[j].c].near == n
    ensures Reaches(s, bad) && !Safe(bad)
  {
    var a := ClosesFirst(s, t, j, u, f, was, n, c);
    hide *;
    var b := UnshareMisses(a, u, f, was, n, c);
    bad := MissedEndsBadly(b, u, f, was, n, c);
    Onward(s, a, b);
    Onward(s, b, bad);
  }

  // ---------------------------------------------------------------- every unguarded step

  /** Task `t` works in a kernel table, and runs its calls there. */
  ghost predicate Settled(s: State, t: Id, table: Id) {
    && t in s.tasks && !s.tasks[t].dead && s.tasks[t].py == table && PipeOk(s, t, s.tasks[t])
    && (s.tasks[t].phase.Unsharing? ==> s.tasks[t].phase.pos < s.tasks[t].done)
  }

  /** The number is about to be closed in a table while an unshare out of it still has it. */
  ghost predicate Exposed(s: State, t: Id, u: Id, f: Id, n: Id, c: Option<Id>) {
    t != u && t in s.tasks && Settled(s, t, s.tasks[t].py) && Pending(s, u, f, s.tasks[t].py)
        && Claim(s, u, Cell(f, n), c)
  }

  lemma {:induction false} SettledIn(s: State, t: Id)
    requires TablesOk(s) && TasksOk(s) && PipesOk(s) && t in s.tasks && !s.tasks[t].dead && s.tasks[t].py in s.tables
    ensures Settled(s, t, s.tasks[t].py)
  {
    assert TaskOk(s, s.tasks[t]) && PipeOk(s, t, s.tasks[t]);
  }

  lemma {:induction false} PendingIn(s: State, u: Id, f: Id)
    requires TablesOk(s) && TasksOk(s) && PipesOk(s) && FreshOk(s) && f in s.reserved && Unsharer(s, u, f)
    ensures Pending(s, u, f, s.reserved[f])
  {
    assert TaskOk(s, s.tasks[u]) && PipeOk(s, u, s.tasks[u]);
  }

  /** A number without handles of other tasks in the old table has none in the new one. */
  lemma {:induction false} NoHandles(s: State, f: Id, n: Id)
    requires HandlesOk(s) && TasksOk(s) && SetsOk(s) && LiveOk(s) && f in s.reserved && Cell(f, n) in s.tracked
             && TrackedOk(s)
    requires Cell(s.reserved[f], n) in s.tracked
    requires forall h :: h in s.tracked[Cell(s.reserved[f], n)] ==>
               h in s.handles && s.handles[h].task in s.tasks && s.tasks[s.handles[h].task].py != f
    ensures s.tracked[Cell(f, n)] == {}
  {
    forall h | h in s.tracked[Cell(f, n)] ensures false {
      HandleBehind(s, f, n, h);
    }
  }

  lemma {:induction false} HandleBehind(s: State, f: Id, n: Id, h: Id)
    requires HandlesOk(s) && TasksOk(s) && SetsOk(s) && LiveOk(s) && f in s.reserved && Cell(f, n) in s.tracked
             && TrackedOk(s)
    requires h in s.tracked[Cell(f, n)]
    ensures h in s.handles && s.handles[h].task in s.tasks && s.tasks[s.handles[h].task].py == f
    ensures Cell(s.reserved[f], n) in s.tracked && h in s.tracked[Cell(s.reserved[f], n)]
  {
    var t := s.handles[h].task;
    var u :| Unsharer(s, u, f);
    assert u == t;
    assert HandleOk(s, h) && TaskOk(s, s.tasks[t]) && s.handles[h].near == n;
  }

  lemma {:induction false} ClaimIn(s: State, u: Id, f: Id, n: Id) returns (c: Option<Id>)
    requires Sound(s) && f in s.reserved && Unsharer(s, u, f) && Cell(s.reserved[f], n) in s.tracked
    requires Cell(f, n) in s.tracked || exists c :: c in s.closes && s.closes[c].dest == f && s.closes[c].near == n
    requires forall h :: h in s.tracked[Cell(s.reserved[f], n)] ==>
               h in s.handles && s.handles[h].task in s.tasks && s.tasks[s.handles[h].task].py != f
    ensures Claim(s, u, Cell(f, n), c)
  {
    if Cell(f, n) in s.tracked {
      NoHandles(s, f, n);
      c := None;
    } else {
      var d :| d in s.closes && s.closes[d].dest == f && s.closes[d].near == n;
      assert CloseOk(s, d, s.closes[d]);
      assert s.closes[d].task == u;
      assert s.closes[d].queued ==> QueuedAt(s, d);
      c := Some(d);
    }
  }

  lemma {:induction false} Exposes(s: State, t: Id, n: Id) returns (u: Id, f: Id, c: Option<Id>)
    requires Sound(s) && t in s.tasks && !s.tasks[t].dead && !NotBeingCopied(s, s.tasks[t].py, n)
             && Cell(s.tasks[t].py, n) in s.tracked
    requires forall h :: h in s.tracked[Cell(s.tasks[t].py, n)] ==>
               h in s.handles && s.handles[h].task in s.tasks && s.tasks[s.handles[h].task].py == s.tasks[t].py
    ensures Exposed(s, t, u, f, n, c) && f != s.tasks[t].py
  {
    f :| && f in s.reserved && s.reserved[f] == s.tasks[t].py
         && (Cell(f, n) in s.tracked || exists c :: c in s.closes && s.closes[c].dest == f && s.closes[c].near == n);
    u :| Unsharer(s, u, f);
    assert f !in s.tables && s.tasks[t].py in s.tables;
    c := ClaimIn(s, u, f, n);
    hide Sound, NotBeingCopied, Claim;
    ExposedIn(s, t, u, f);
  }

  lemma {:induction false} ExposedIn(s: State, t: Id, u: Id, f: Id)
    requires Sound(s) && t in s.tasks && !s.tasks[t].dead && s.tasks[t].py in s.tables
    requires f in s.reserved && s.reserved[f] == s.tasks[t].py && Unsharer(s, u, f)
    ensures Settled(s, t, s.tasks[t].py) && Pending(s, u, f, s.tasks[t].py) && t != u
  {
    hide TablesOk, TasksOk, PipesOk, FreshOk, Pending, Settled;
    SettledIn(s, t);
    PendingIn(s, u, f);
    NotTheSame(s, t, u, f);
  }

  lemma {:induction false} NotTheSame(s: State, t: Id, u: Id, f: Id)
    requires TablesOk(s) && t in s.tasks && s.tasks[t].py in s.tables && f in s.reserved && Unsharer(s, u, f)
    ensures t != u
  {
  }

  /** Starting the close, and submitting it if it was only scheduled. */
  lemma {:induction false} StartsClose(s: State, t: Id, n: Id, queued: bool, holder: Option<Id>, u: Id, f: Id,
      c: Option<Id>) returns (bad: State)
    requires Exposed(s, t, u, f, n, c) && f != s.tasks[t].py
    ensures Reaches(Initiate(s, t, n, queued, holder), bad) && !Safe(bad)
  {
    var s1, was := Initiate(s, t, n, queued, holder), s.tasks[t].py;
    if queued {
      Queued(s, t, n, holder, u, f, c);
      bad := TooEarly(s1, t, |s.tasks[t].pipe|, u, f, was, n, c);
    } else {
      Scheduled(s, t, n, holder, u, f, c);
      hide *;
      var s2 := SubmitClose(s1, s.next);
      bad := TooEarly(s2, t, |s.tasks[t].pipe|, u, f, was, n, c);
      Onward(s1, s2, bad);
    }
  }

  /** The close is the last call in the pipe, behind calls that run in the same table. */
  ghost predicate LastIsClose(s: State, t: Id, table: Id, n: Id) {
    && t in s.tasks && |s.tasks[t].pipe| > 0 && Drainable(s, t, |s.tasks[t].pipe| - 1, table)
    && TableAt(s.tasks[t], |s.tasks[t].pipe| - 1) == table
    && var e := s.tasks[t].pipe[|s.tasks[t].pipe| - 1]; e.Closing? && e.c in s.closes && s.closes[e.c].near == n
  }

  lemma {:induction false} PushedIsLast(s: State, s': State, t: Id, table: Id, n: Id, d: Id)
    requires Settled(s, t, table) && NewIds(s') && t in s'.tasks && s'.tasks[t] == Push(s.tasks[t], Closing(d))
    requires d in s'.closes && s'.closes[d].near == n && PipeOk(s', t, s'.tasks[t])
    ensures LastIsClose(s', t, table, n)
  {
    var task, task' := s.tasks[t], s'.tasks[t];
    forall i | task'.done <= i < |task.pipe| ensures task'.pipe[i] != Unshare && TableAt(task', i) == table {
      assert EntryOk(s, t, task, i);
    }
  }

  /** A new close at the end of the pipe of `t`, and nothing else that matters. */
  lemma {:induction false} ClosePushed(s: State, s': State, t: Id, n: Id, u: Id, f: Id, c: Option<Id>)
    requires Exposed(s, t, u, f, n, c) && f != s.tasks[t].py && NewIds(s')
    requires s'.tasks == s.tasks[t := Push(s.tasks[t], Closing(s.next))] && s'.arrivals == s.arrivals
             && s'.kernel == s.kernel
    requires s'.reserved == s.reserved && s'.tracked == s.tracked - {Cell(s.tasks[t].py, n)}
    requires s.next in s'.closes && s'.closes == s.closes[s.next := s'.closes[s.next]]
    requires var d := s'.closes[s.next]; d.task == t && d.queued && d.near == n && d.dest == s.tasks[t].py
    ensures var was := s.tasks[t].py;
              Pending(s', u, f, was) && Claim(s', u, Cell(f, n), c) && LastIsClose(s', t, was, n)
  {
    var task := s.tasks[t];
    EntriesIn(s, t, task);
    PipeFrame(s, s', t, task);
    assert Closing(s.next) !in task.pipe;
    PushPipe(s', t, task, Closing(s.next));
    PipeFrame(s, s', u, s.tasks[u]);
    hide PipeOk;
    PushedIsLast(s, s', t, task.py, n, s.next);
  }

  lemma {:induction false} Queued(s: State, t: Id, n: Id, holder: Option<Id>, u: Id, f: Id, c: Option<Id>)
    requires Exposed(s, t, u, f, n, c) && f != s.tasks[t].py
    ensures var s', was := Initiate(s, t, n, true, holder), s.tasks[t].py;
            Pending(s', u, f, was) && Claim(s', u, Cell(f, n), c) && LastIsClose(s', t, was, n)
            && |s'.tasks[t].pipe| == |s.tasks[t].pipe| + 1
  {
    hide PipeOk, Claim, LastIsClose;
    ClosePushed(s, Initiate(s, t, n, true, holder), t, n, u, f, c);
  }

  lemma {:induction false} Scheduled(s: State, t: Id, n: Id, holder: Option<Id>, u: Id, f: Id, c: Option<Id>)
    requires Exposed(s, t, u, f, n, c) && f != s.tasks[t].py
    ensures CanSubmitClose(Initiate(s, t, n, false, holder), s.next)
    ensures var s1, was := Initiate(s, t, n, false, holder), s.tasks[t].py;
            var s' := SubmitClose(s1, s.next);
            && Reaches(s1, s') && Pending(s', u, f, was) && Claim(s', u, Cell(f, n), c) && LastIsClose(s', t, was, n)
            && |s'.tasks[t].pipe| == |s.tasks[t].pipe| + 1
  {
    hide PipeOk, Claim, LastIsClose, Reaches;
    var s1 := Initiate(s, t, n, false, holder);
    Taken(s1, DoSubmitClose(s.next));
    ClosePushed(s, SubmitClose(s1, s.next), t, n, u, f, c);
  }

  lemma {:induction false} UntrackExposed(s: State, h: Id, t: Id, u: Id, f: Id, n: Id, c: Option<Id>)
    requires Exposed(s, t, u, f, n, c) && f != s.tasks[t].py && Current(s, h) && s.handles[h].task == t
    ensures Exposed(Untrack(s, h), t, u, f, n, c)
  {
    var s' := Untrack(s, h);
    PipeFrame(s, s', t, s.tasks[t]);
    PipeFrame(s, s', u, s.tasks[u]);
    hide PipeOk;
  }

  /** After every step that starts a close without the guard, guarded steps lead to a bad state. */
  lemma {:induction false} UnguardedEndsBadly(s: State, step: Step) returns (bad: State)
    requires Sound(s) && Can(s, step) && !Guarded(s, step)
    ensures Reaches(Apply(s, step), bad) && !Safe(bad)
  {
    match step
    case DoGc(t, n) => bad := UnguardedGc(s, t, n);
    case DoInvalidate(h) => bad := UnguardedInvalidate(s, h);
  }

  lemma {:induction false} UnguardedGc(s: State, t: Id, n: Id) returns (bad: State)
    requires Sound(s) && CanGc(s, t, n) && !s.tasks[t].dead && !NotBeingCopied(s, s.tasks[t].py, n)
    ensures Reaches(Gc(s, t, n), bad) && !Safe(bad)
  {
    hide Sound, NotBeingCopied, Exposed, Reaches;
    var u, f, c := Exposes(s, t, n);
    bad := StartsClose(s, t, n, false, None, u, f, c);
  }

  lemma {:induction false} UnguardedInvalidate(s: State, h: Id) returns (bad: State)
    requires Sound(s) && Current(s, h) && LastHandle(s, h) && !s.tasks[s.handles[h].task].dead
    requires !NotBeingCopied(s, CellOf(s, h).table, s.handles[h].near)
    ensures Reaches(Invalidate(s, h), bad) && !Safe(bad)
  {
    hide Sound, NotBeingCopied, Exposed, Reaches;
    var t, n := s.handles[h].task, s.handles[h].near;
    forall g | g in s.tracked[CellOf(s, h)] ensures g == h {
      assert g in s.tracked[CellOf(s, h)] - {h} || g == h;
    }
    var u, f, c := Exposes(s, t, n);
    UntrackExposed(s, h, t, u, f, n, c);
    bad := StartsClose(Untrack(s, h), t, n, true, Some(h), u, f, c);
  }

  /** Exactly when a step is harmless: in a run guarded so far, the step is guarded if and only if
      every valid handle stays good in all continuations whose further closes start guarded. */
  lemma {:induction false} GuardIsExact(states: seq<State>, steps: seq<Step>, i: nat, step: Step)
    requires IsRun(states, steps) && Init(states[0]) && IsGuarded(states, steps) && i < |states| && Can(states[i], step)
    ensures Guarded(states[i], step) <==> forall s :: Reaches(Apply(states[i], step), s) ==> Safe(s)
  {
    HandlesStaySafe(states, steps, i);
    var s := states[i];
    hide Sound, Guarded, Can, Apply, Reaches, Safe, IsRun, Init, IsGuarded;
    if Guarded(s, step) {
      StepSound(s, step);
      forall s' | Reaches(Apply(s, step), s') ensures Safe(s') {
        ReachedIsSafe(Apply(s, step), s');
      }
    } else {
      var bad := UnguardedEndsBadly(s, step);
    }
  }
}
