/** The code does start closes without the guard, and loses results of closes that ran. */
module FdRace {
  import opened Prelude
  import opened FdTables
  import opened FdInvariant
  import opened FdSteps
  import opened FdSafety
  import opened FdGuard
  import opened FdLive
  import opened FdRuns
  import opened FdExact

  // ---------------------------------------------------------------- garbage collection during an unshare

  /** Two working tasks share a table, and `h`, of the first one, is the only handle of its number. */
  ghost predicate Alone(s: State, t: Id, u: Id, h: Id) {
    && t != u && t in s.tasks && u in s.tasks && s.tasks[t].py == s.tasks[u].py
    && s.tasks[t].phase.Stable? && !s.tasks[t].dead && !s.tasks[u].dead
    && h in s.handles && s.handles[h].valid && s.handles[h].task == t && CanCollect(s, h)
    && Cell(s.tasks[t].py, s.handles[h].near) in s.tracked && s.tracked[Cell(s.tasks[t].py, s.handles[h].near)] == {h}
  }

  /** The task calls unshare_files, and its handle is dropped before the call has run. */
  function Dropped(s: State, t: Id, h: Id): State
    requires CanStartUnshare(s, t)
  {
    Collect(StartUnshare(s, t), h)
  }

  lemma {:induction false} StillCollectable(s: State, t: Id, h: Id)
    requires CanStartUnshare(s, t) && !s.tasks[t].dead && CanCollect(s, h)
    ensures CanCollect(StartUnshare(s, t), h)
  {
    hide FreshTable, Claims;
    var s' := StartUnshare(s, t);
    forall c | c in s'.closes ensures s'.closes[c].holder != Some(h) {
      assert s.closes[c].holder == s'.closes[c].holder;
    }
  }

  lemma {:induction false} DroppedIsExposed(s: State, t: Id, u: Id, h: Id)
    requires Alone(s, t, u, h) && s.tasks[t].py != s.next
    ensures var d, n := Dropped(s, t, h), s.handles[h].near;
            CanGc(d, u, n) && !Guarded(d, DoGc(u, n))
  {
    hide FreshTable, Claims;
    var n, was, f := s.handles[h].near, s.tasks[t].py, s.next;
    assert h in FdHandles(s, t);
    assert Cell(f, n) in FreshTable(s, t, f) && Cell(was, n) !in FreshTable(s, t, f);
    var d := Dropped(s, t, h);
    assert d.tracked[Cell(was, n)] == {h} - {h} == {};
    assert f in d.reserved && d.reserved[f] == was && Cell(f, n) in d.tracked;
    assert !NotBeingCopied(d, was, n);
  }

  /** From every state reached so far in which a number has one handle and its task shares the
      table, the code gets to start a close without the guard, and that can end badly. */
  lemma {:induction false} UnguardedGcBreaksHandles(s: State, t: Id, u: Id, h: Id) returns (bad: State)
    requires Sound(s) && Alone(s, t, u, h)
    ensures var d, n := Dropped(s, t, h), s.handles[h].near;
            Reaches(s, d) && CanGc(d, u, n) && Reaches(Gc(d, u, n), bad) && !Safe(bad)
  {
    hide Sound, Reaches, StartUnshare, Collect, Safe, Guarded;
    TableIsNotNew(s, t);
    DroppedIsExposed(s, t, u, h);
    DropIsReached(s, t, h);
    bad := UnguardedEndsBadly(Dropped(s, t, h), DoGc(u, s.handles[h].near));
  }

  lemma {:induction false} TableIsNotNew(s: State, t: Id)
    requires Sound(s) && CanStartUnshare(s, t)
    ensures s.tasks[t].py != s.next
  {
    assert TaskOk(s, s.tasks[t]);
  }

  lemma {:induction false} DropIsReached(s: State, t: Id, h: Id)
    requires Sound(s) && CanStartUnshare(s, t) && !s.tasks[t].dead && CanCollect(s, h)
    ensures Reaches(s, Dropped(s, t, h)) && Sound(Dropped(s, t, h))
  {
    hide Sound, Reaches, StartUnshare, Collect, CanCollect;
    StillCollectable(s, t, h);
    var a := StartUnshare(s, t);
    StepSound(s, DoStartUnshare(t));
    StepSound(a, DoCollect(h));
    Taken(s, DoStartUnshare(t));
    Taken(a, DoCollect(h));
    Onward(s, a, Collect(a, h));
  }

  // ---------------------------------------------------------------- lost results

  /** A close that did run, on a connection that broke before its result: `_close_fd` puts the
      number back all the same, unless it is tracked again, which fails its assertion. */
  predicate CanPutBack(s: State, t: Id) {
    && HasResult(s, t) && s.tasks[t].dead && s.tasks[t].pipe[0].Closed?
    && Cell(s.tasks[t].pipe[0].origin, s.tasks[t].pipe[0].near) !in s.tracked
  }

  function PutBack(s: State, t: Id): State
    requires CanPutBack(s, t)
  {
    var e := s.tasks[t].pipe[0];
    s.(tasks := s.tasks[t := Take(s.tasks[t], 0)], tracked := s.tracked[Cell(e.origin, e.near) := {}])
  }

  /** If a task works in the table, the number can be opened by it and closed under its handle. */
  lemma {:induction false} LostCloseBreaksHandles(s: State, t: Id, v: Id) returns (bad: State)
    requires Sound(s) && CanPutBack(s, t) && v in s.tasks && !s.tasks[v].dead
    requires var k := Cell(s.tasks[t].pipe[0].origin, s.tasks[t].pipe[0].near);
             && s.tasks[v].py == k.table && k.table in s.tables && k !in s.kernel
             && forall g :: g in s.reserved ==> s.reserved[g] != k.table
    ensures Reaches(PutBack(s, t), bad) && !Safe(bad)
  {
    var k, p := Cell(s.tasks[t].pipe[0].origin, s.tasks[t].pipe[0].near), PutBack(s, t);
    hide PipeOk, Reaches, Safe, Sound;
    AfterPutBack(s, t, v);
    if s.tasks[v].phase.Stable? {
      bad := LandedEndsBadly(p, v, k.table, k.near, None);
    } else {
      bad := MissedEndsBadly(p, v, k.table, s.tasks[v].phase.was, k.near, None);
    }
  }

  lemma {:induction false} AfterPutBack(s: State, t: Id, v: Id)
    requires Sound(s) && CanPutBack(s, t) && v in s.tasks && !s.tasks[v].dead && s.tasks[v].py in s.tables
    requires forall g :: g in s.reserved ==> s.reserved[g] != s.tasks[v].py
    ensures var p := PutBack(s, t); Worker(p, v, s.tasks[v].py) && p.tasks[v] == s.tasks[v]
    ensures var p := s.tasks[v].phase; p.Unsharing? ==> p.pos < s.tasks[v].done && p.was != s.tasks[v].py
  {
    assert TaskOk(s, s.tasks[v]) && PipeOk(s, v, s.tasks[v]) && s.tasks[v].py !in s.reserved;
    assert NewIds(s);
    hide Sound, PipeOk;
    PipeFrame(s, PutBack(s, t), v, s.tasks[v]);
  }

  /** If the number is open again, but its result was never made a handle, putting it back takes
      responsibility for it, and everything stays in order. */
  lemma {:induction false} PutBackOfLeakedKeeps(s: State, t: Id)
    requires Inv(s) && CanPutBack(s, t)
    requires var k := Cell(s.tasks[t].pipe[0].origin, s.tasks[t].pipe[0].near); k in s.owner && s.owner[k] == Leaked
    ensures var k := Cell(s.tasks[t].pipe[0].origin, s.tasks[t].pipe[0].near);
            Inv(PutBack(s, t).(owner := s.owner[k := Tracked]))
  {
    var k := Cell(s.tasks[t].pipe[0].origin, s.tasks[t].pipe[0].near);
    var a := OnClosed(s, t);
    OnClosedKeeps(s, t);
    var s' := a.(tracked := a.tracked[k := {}], owner := a.owner[k := Tracked]);
    hide TablesOk, TasksOk, PipesOk, ClosesOk, ArrivalsOk, TrackedOk, HandlesOk, LegacyOk, FreshOk, Take;
    LeakedTables(a, k);
    LeakedOthers(a, k);
    TasksSame(a, s');
    PipesSame(a, s');
    FreshGrows(a, s');
    assert s' == PutBack(s, t).(owner := s.owner[k := Tracked]);
  }

  lemma {:induction false} LeakedTables(s: State, k: Cell)
    requires TablesOk(s) && k in s.owner
    ensures TablesOk(s.(tracked := s.tracked[k := {}], owner := s.owner[k := Tracked]))
  {
  }

  lemma {:induction false} LeakedOthers(s: State, k: Cell)
    requires ClosesOk(s) && ArrivalsOk(s) && TrackedOk(s) && HandlesOk(s) && LegacyOk(s)
    requires k in s.owner && s.owner[k] == Leaked && k !in s.tracked
    ensures var s' := s.(tracked := s.tracked[k := {}], owner := s.owner[k := Tracked]);
            ClosesOk(s') && ArrivalsOk(s') && TrackedOk(s') && HandlesOk(s') && LegacyOk(s')
  {
    var s' := s.(tracked := s.tracked[k := {}], owner := s.owner[k := Tracked]);
    forall h | h in s'.handles && s'.handles[h].valid ensures HandleOk(s', h) {
      assert HandleOk(s, h);
    }
    forall c | c in s'.closes ensures CloseOk(s', c, s'.closes[c]) {
      assert CloseOk(s, c, s.closes[c]);
    }
  }
}
