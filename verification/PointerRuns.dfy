/** The operations of `Pointer` and its subclasses, and what holds after any sequence of them. */
module PointerRuns {
  import opened Allocator
  import opened Pointers

  datatype Step =
    | Map(length: nat)                                // a fresh mapping
    | Malloc(a: nat, size: nat, alignment: nat)       // from arena `a`
    | SplitPtr(p: nat, size: nat)
    | MergePtr(p: nat, q: nat)
    | Convert(p: nat, kind: Kind)                     // _wrote, _readable, _linearize, _reinterpret, _with_mapping
    | FreePtr(p: nat)
    | LinearReadDone(p: nat)                          // linear_read, once its read has returned

  predicate Known(h: Heap, step: Step) {
    match step
    case Map(_) => true
    case Malloc(a, _, alignment) => a < |h.arenas| && Laid(h.arenas[a]) && alignment > 0
    case SplitPtr(p, size) => p < |h.ptrs| && (h.ptrs[p].valid ==> InRange(h, h.ptrs[p].loc, size))
    case MergePtr(p, q) => p < |h.ptrs| && q < |h.ptrs| && h.ptrs[p].loc.arena < |h.arenas|
    case Convert(p, _) => p < |h.ptrs|
    case FreePtr(p) => p < |h.ptrs| && h.ptrs[p].loc.arena < |h.arenas|
    case LinearReadDone(p) => p < |h.ptrs|
  }

  /** Allocation.split leaves it to its callers that the split point lies in the allocation. */
  predicate InRange(h: Heap, loc: Loc, size: nat) {
    Allocated(h, loc) && Get(h.arenas[loc.arena], loc.id).start + size <= Get(h.arenas[loc.arena], loc.id).end
  }

  function DoMalloc(h: Heap, a: nat, size: nat, alignment: nat): Heap
    requires a < |h.arenas| && Laid(h.arenas[a]) && alignment > 0
  {
    if FirstFit(h.arenas[a], 0, 0, size, alignment).NoSpace? then h
    else Hold(Edit(h, a, Allocate(h.arenas[a], size, alignment)), Loc(a, h.arenas[a].next), Raw)
  }

  function DoSplit(h: Heap, p: nat, size: nat): Heap
    requires p < |h.ptrs| && InRange(h, h.ptrs[p].loc, size)
  {
    var loc := h.ptrs[p].loc;
    var st := h.arenas[loc.arena];
    var edited := Edit(Invalidate(h, p), loc.arena, Split(st, loc.id, size));
    Hold(Hold(edited, Loc(loc.arena, st.next), Raw), Loc(loc.arena, st.next + 1), Raw)
  }

  /** Both pointers are invalidated first; if the allocations then refuse to merge, nobody holds them. */
  function DoMerge(h: Heap, p: nat, q: nat): Heap
    requires p < |h.ptrs| && q < |h.ptrs| && h.ptrs[p].loc.arena < |h.arenas|
  {
    var l, m := h.ptrs[p].loc, h.ptrs[q].loc;
    var dropped := Invalidate(Invalidate(h, p), q);
    if l.arena != m.arena || Merge(h.arenas[l.arena], l.id, m.id).Refused? then dropped
    else Hold(Edit(dropped, l.arena, Merge(h.arenas[l.arena], l.id, m.id).st), Loc(l.arena, h.arenas[l.arena].next),
        Raw)
  }

  function DoFree(h: Heap, p: nat): Heap
    requires p < |h.ptrs| && h.ptrs[p].loc.arena < |h.arenas|
  {
    var loc := h.ptrs[p].loc;
    Log(Edit(Invalidate(h, p), loc.arena, Free(h.arenas[loc.arena], loc.id)), loc)
  }

  function Log(h: Heap, loc: Loc): Heap {
    h.(freed := h.freed + [loc])
  }

  function Rehold(h: Heap, p: nat, kind: Kind): Heap
    requires p < |h.ptrs|
  {
    Hold(Invalidate(h, p), h.ptrs[p].loc, kind)
  }

  /** An operation on an invalid pointer raises UseAfterFreeError and changes nothing, except that
      free does nothing, and that linear_read does not look again once its read has returned. */
  function Apply(h: Heap, step: Step): Heap
    requires Known(h, step)
  {
    match step
    case Map(length) => h.(arenas := h.arenas + [State(length, [], 0)])
    case Malloc(a, size, alignment) => DoMalloc(h, a, size, alignment)
    case SplitPtr(p, size) => if h.ptrs[p].valid then DoSplit(h, p, size) else h
    case MergePtr(p, q) => if h.ptrs[p].valid && h.ptrs[q].valid then DoMerge(h, p, q) else h
    case Convert(p, kind) => if h.ptrs[p].valid then Rehold(h, p, kind) else h
    case FreePtr(p) => if h.ptrs[p].valid then DoFree(h, p) else h
    case LinearReadDone(p) => Rehold(h, p, Raw)
  }

  /** linear_read must find its pointer still valid, or its allocation alive and held by nobody. */
  predicate Sound(h: Heap, step: Step)
    requires Known(h, step)
  {
    step.LinearReadDone? ==> h.ptrs[step.p].valid || (Allocated(h, h.ptrs[step.p].loc) && Unheld(h, h.ptrs[step.p].loc))
  }

  // ---------------------------------------------------------------- every step keeps the invariant

  lemma {:induction false} MapKeeps(h: Heap, length: nat)
    requires Inv(h)
    ensures Inv(h.(arenas := h.arenas + [State(length, [], 0)]))
  {
    var h' := h.(arenas := h.arenas + [State(length, [], 0)]);
    forall loc | Within(h, loc) ensures Within(h', loc) && (Allocated(h', loc) <==> Allocated(h, loc)) {
    }
  }

  lemma {:induction false} MallocKeeps(h: Heap, a: nat, size: nat, alignment: nat)
    requires Inv(h) && a < |h.arenas| && Laid(h.arenas[a]) && alignment > 0
    ensures Inv(DoMalloc(h, a, size, alignment))
  {
    hide Inv, Laid, Allocate, FirstFit, Changes, Allocated, Unheld;
    if FirstFit(h.arenas[a], 0, 0, size, alignment).At? {
      var st := h.arenas[a];
      AllocateChanges(st, size, alignment);
      EditKeeps(h, a, Allocate(st, size, alignment), {});
      HoldKeeps(Edit(h, a, Allocate(st, size, alignment)), Loc(a, st.next), Raw);
    }
  }

  lemma {:induction false} SplitKeeps(h: Heap, p: nat, size: nat)
    requires Inv(h) && p < |h.ptrs| && h.ptrs[p].valid && InRange(h, h.ptrs[p].loc, size)
    ensures Inv(DoSplit(h, p, size))
  {
    var loc := h.ptrs[p].loc;
    var st := h.arenas[loc.arena];
    assert Laid(st);
    hide Inv, Laid, Split, Changes, Unheld;
    SplitChanges(st, loc.id, size);
    InvalidateKeeps(h, p);
    var h1 := Edit(Invalidate(h, p), loc.arena, Split(st, loc.id, size));
    EditKeeps(Invalidate(h, p), loc.arena, Split(st, loc.id, size), {loc.id});
    var f, g := Loc(loc.arena, st.next), Loc(loc.arena, st.next + 1);
    HoldKeeps(h1, f, Raw);
    assert Unheld(Hold(h1, f, Raw), g) by { HoldsOther(h1, f, Raw, g); }
    HoldKeeps(Hold(h1, f, Raw), g, Raw);
  }

  lemma {:induction false} HoldsOther(h: Heap, loc: Loc, kind: Kind, other: Loc)
    requires Unheld(h, other) && loc != other
    ensures Unheld(Hold(h, loc, kind), other)
  {
  }

  lemma {:induction false} StillUnheld(h: Heap, p: nat, loc: Loc)
    requires p < |h.ptrs| && Unheld(h, loc)
    ensures Unheld(Invalidate(h, p), loc)
  {
  }

  lemma {:induction false} DropBoth(h: Heap, p: nat, q: nat)
    requires Inv(h) && p < |h.ptrs| && q < |h.ptrs| && h.ptrs[p].valid && h.ptrs[q].valid
    ensures var d := Invalidate(Invalidate(h, p), q); Inv(d) && Unheld(d, h.ptrs[p].loc) && Unheld(d, h.ptrs[q].loc)
  {
    InvalidateKeeps(h, p);
    InvalidateKeeps(Invalidate(h, p), q);
    StillUnheld(Invalidate(h, p), q, h.ptrs[p].loc);
  }

  lemma {:induction false} MergeKeeps(h: Heap, p: nat, q: nat)
    requires Inv(h) && p < |h.ptrs| && q < |h.ptrs| && h.ptrs[p].valid && h.ptrs[q].valid
             && h.ptrs[p].loc.arena < |h.arenas|
    ensures Inv(DoMerge(h, p, q))
  {
    var l, m := h.ptrs[p].loc, h.ptrs[q].loc;
    var st := h.arenas[l.arena];
    assert Laid(st);
    hide Inv, Laid, Merge, Changes, Unheld, Allocated;
    DropBoth(h, p, q);
    var d := Invalidate(Invalidate(h, p), q);
    if l.arena == m.arena && Merge(st, l.id, m.id).Merged? {
      MergeChanges(st, l.id, m.id);
      var st' := Merge(st, l.id, m.id).st;
      EditKeeps(d, l.arena, st', {l.id, m.id});
      HoldKeeps(Edit(d, l.arena, st'), Loc(l.arena, st.next), Raw);
    }
  }

  lemma {:induction false} FreeKeeps(h: Heap, p: nat)
    requires Inv(h) && p < |h.ptrs| && h.ptrs[p].valid && h.ptrs[p].loc.arena < |h.arenas|
    ensures Inv(DoFree(h, p)) && h.ptrs[p].loc !in h.freed
  {
    var loc := h.ptrs[p].loc;
    var st := h.arenas[loc.arena];
    assert Laid(st) && Allocated(h, loc);
    assert loc !in h.freed;
    hide Inv, Laid, Free, Unheld;
    FreeChanges(st, loc.id);
    InvalidateKeeps(h, p);
    var e := Edit(Invalidate(h, p), loc.arena, Free(st, loc.id));
    EditKeeps(Invalidate(h, p), loc.arena, Free(st, loc.id), {loc.id});
    LogKeeps(e, loc);
  }

  lemma {:induction false} LogKeeps(h: Heap, loc: Loc)
    requires Inv(h) && Within(h, loc) && !Allocated(h, loc) && loc !in h.freed
    ensures Inv(Log(h, loc))
  {
  }

  lemma {:induction false} ReholdKeeps(h: Heap, p: nat, kind: Kind)
    requires Inv(h) && p < |h.ptrs|
    ensures Inv(Rehold(h, p, kind)) <==> h.ptrs[p].valid || (Allocated(h, h.ptrs[p].loc) && Unheld(h, h.ptrs[p].loc))
  {
    var loc, d := h.ptrs[p].loc, Invalidate(h, p);
    InvalidateKeeps(h, p);
    if h.ptrs[p].valid || (Allocated(h, loc) && Unheld(h, loc)) {
      assert Allocated(d, loc) && Unheld(d, loc);
      HoldKeeps(d, loc, kind);
    } else {
      var h' := Rehold(h, p, kind);
      var n := |h.ptrs|;
      assert h'.ptrs[n].valid && h'.ptrs[n].loc == loc;
      if q :| 0 <= q < n && h.ptrs[q].valid && h.ptrs[q].loc == loc {
        assert h'.ptrs[q] == h.ptrs[q];
      } else {
        assert !Allocated(h', loc);
      }
    }
  }

  lemma {:induction false} StepKeeps(h: Heap, step: Step)
    requires Inv(h) && Known(h, step) && Sound(h, step)
    ensures Inv(Apply(h, step))
  {
    hide Inv, DoMalloc, DoSplit, DoMerge, DoFree, Rehold, Laid, Unheld, Allocated;
    match step
    case Map(length) => MapKeeps(h, length);
    case Malloc(a, size, alignment) => MallocKeeps(h, a, size, alignment);
    case SplitPtr(p, size) => if h.ptrs[p].valid { SplitKeeps(h, p, size); }
    case MergePtr(p, q) => if h.ptrs[p].valid && h.ptrs[q].valid { MergeKeeps(h, p, q); }
    case Convert(p, kind) => if h.ptrs[p].valid { ReholdKeeps(h, p, kind); }
    case FreePtr(p) => if h.ptrs[p].valid { FreeKeeps(h, p); }
    case LinearReadDone(p) => ReholdKeeps(h, p, Raw);
  }

  // ---------------------------------------------------------------- what each operation does to memory

  function Range(h: Heap, p: nat): Block
    requires p < |h.ptrs| && Allocated(h, h.ptrs[p].loc)
  {
    Get(h.arenas[h.ptrs[p].loc.arena], h.ptrs[p].loc.id)
  }

  /** One arena has other allocations than before: without those in `gone`, with those in `added`. */
  ghost predicate OnlyEdits(h: Heap, h': Heap, a: nat, gone: set<nat>, added: set<Block>) {
    && a < |h.arenas| == |h'.arenas| && h'.arenas[a].length == h.arenas[a].length
    && (forall i :: 0 <= i < |h.arenas| && i != a ==> h'.arenas[i] == h.arenas[i])
    && (forall b :: b in h'.arenas[a].blocks <==> (b in h.arenas[a].blocks && b.id !in gone) || b in added)
  }

  /** A pointer to exactly this range, and nobody else's. */
  predicate PointsTo(h: Heap, p: nat, a: nat, b: Block) {
    p < |h.ptrs| && h.ptrs[p] == Pointer(Loc(a, b.id), Raw, true) && Allocated(h, h.ptrs[p].loc) && Range(h, p) == b
  }

  lemma {:induction false} NewPointsTo(h: Heap, p: nat, a: nat, b: Block)
    requires Inv(h) && p < |h.ptrs| && h.ptrs[p] == Pointer(Loc(a, b.id), Raw, true)
    requires a < |h.arenas| && b in h.arenas[a].blocks
    ensures PointsTo(h, p, a, b)
  {
    assert Laid(h.arenas[a]) && Within(h, h.ptrs[p].loc);
    OneId(h.arenas[a], b);
  }

  /** A new pointer to the lowest free range of the requested size and alignment; nothing else changes. */
  ghost predicate Gave(h: Heap, h': Heap, a: nat, size: nat, alignment: nat)
    requires a < |h.arenas| && alignment > 0
  {
    var n := |h.ptrs|;
    && |h'.ptrs| == n + 1 && h'.ptrs[..n] == h.ptrs && h'.freed == h.freed
    && h'.ptrs[n].loc.arena == a && Allocated(h', h'.ptrs[n].loc)
    && var b := Range(h', n);
       && PointsTo(h', n, a, b) && b.end == b.start + size && LowestRoom(h.arenas[a], b.start, size, alignment)
       && OnlyEdits(h, h', a, {}, {b})
  }

  /** malloc gives such a pointer, and fails exactly if there is no such range. */
  lemma {:induction false} MallocGives(h: Heap, a: nat, size: nat, alignment: nat)
    requires Inv(h) && a < |h.arenas| && Laid(h.arenas[a]) && alignment > 0
    ensures NoRoom(h.arenas[a], size, alignment) <==> FirstFit(h.arenas[a], 0, 0, size, alignment).NoSpace?
    ensures var h' := DoMalloc(h, a, size, alignment);
            if NoRoom(h.arenas[a], size, alignment) then h' == h else Gave(h, h', a, size, alignment)
  {
    var st := h.arenas[a];
    var place := FirstFit(st, 0, 0, size, alignment);
    MallocKeeps(h, a, size, alignment);
    FirstFitIsLowest(st, size, alignment);
    AllocateAdds(st, size, alignment);
    if place.At? {
      assert !NoRoom(st, size, alignment);
      var h', b := DoMalloc(h, a, size, alignment), Block(st.next, place.start, place.start + size);
      hide Inv, Laid, FirstFit, Allocate, Available;
      NewPointsTo(h', |h.ptrs|, a, b);
    }
  }

  /** The pointer is invalid, and exactly its allocation is off the list. */
  ghost predicate GaveBack(h: Heap, h': Heap, p: nat)
    requires p < |h.ptrs|
  {
    var loc := h.ptrs[p].loc;
    && h'.ptrs == h.ptrs[p := h.ptrs[p].(valid := false)] && h'.freed == h.freed + [loc]
    && !Allocated(h', loc) && OnlyEdits(h, h', loc.arena, {loc.id}, {})
  }

  lemma {:induction false} FreeGivesBack(h: Heap, p: nat)
    requires Inv(h) && p < |h.ptrs| && h.ptrs[p].valid && h.ptrs[p].loc.arena < |h.arenas|
    ensures GaveBack(h, DoFree(h, p), p)
  {
    var loc := h.ptrs[p].loc;
    assert Laid(h.arenas[loc.arena]);
    FreeKeepsLaid(h.arenas[loc.arena], loc.id);
    FreeRemoves(h.arenas[loc.arena], loc.id);
    hide Inv, Laid, Free;
  }

  lemma {:induction false} SplitEdits(h: Heap, p: nat, size: nat)
    requires p < |h.ptrs| && InRange(h, h.ptrs[p].loc, size) && Laid(h.arenas[h.ptrs[p].loc.arena])
    ensures var loc, was := h.ptrs[p].loc, Range(h, p);
            var id := h.arenas[loc.arena].next;
            OnlyEdits(h, DoSplit(h, p, size), loc.arena, {loc.id},
                {Block(id, was.start, was.start + size), Block(id + 1, was.start + size, was.end)})
  {
    hide Laid, Split, Index, OnlyEdits;
    var a, st, id, was := h.ptrs[p].loc.arena, h.arenas[h.ptrs[p].loc.arena], h.ptrs[p].loc.id, Range(h, p);
    SplitReplaces(st, id, size);
    EditsOne(h, DoSplit(h, p, size), a, Split(st, id, size), {id},
        {Block(st.next, was.start, was.start + size), Block(st.next + 1, was.start + size, was.end)});
  }

  lemma {:induction false} EditsOne(h: Heap, h': Heap, a: nat, st: State, gone: set<nat>, added: set<Block>)
    requires a < |h.arenas| && h'.arenas == h.arenas[a := st] && st.length == h.arenas[a].length
    requires forall b :: b in st.blocks <==> (b in h.arenas[a].blocks && b.id !in gone) || b in added
    ensures OnlyEdits(h, h', a, gone, added)
  {
  }

  /** Two new pointers hold the two parts of the range; the old pointer is invalid. */
  ghost predicate SplitInto(h: Heap, h': Heap, p: nat, size: nat)
    requires p < |h.ptrs| && Allocated(h, h.ptrs[p].loc)
  {
    var loc, was, n := h.ptrs[p].loc, Range(h, p), |h.ptrs|;
    var id := h.arenas[loc.arena].next;
    && |h'.ptrs| == n + 2 && h'.ptrs[..n] == h.ptrs[p := h.ptrs[p].(valid := false)] && h'.freed == h.freed
    && was.start + size <= was.end
    && var f, g := Block(id, was.start, was.start + size), Block(id + 1, was.start + size, was.end);
       && PointsTo(h', n, loc.arena, f) && PointsTo(h', n + 1, loc.arena, g)
       && OnlyEdits(h, h', loc.arena, {loc.id}, {f, g})
  }

  lemma {:induction false} SplitGives(h: Heap, p: nat, size: nat)
    requires Inv(h) && p < |h.ptrs| && h.ptrs[p].valid && InRange(h, h.ptrs[p].loc, size)
    ensures SplitInto(h, DoSplit(h, p, size), p, size)
  {
    hide Inv, Laid, DoSplit, OnlyEdits, PointsTo, Index;
    var loc, was, n := h.ptrs[p].loc, Range(h, p), |h.ptrs|;
    var id := h.arenas[loc.arena].next;
    ArenaIsLaid(h, loc.arena);
    SplitKeeps(h, p, size);
    SplitEdits(h, p, size);
    SplitPtrs(h, p, size);
    TwoNew(h, DoSplit(h, p, size), n, loc.arena, Block(id, was.start, was.start + size),
        Block(id + 1, was.start + size, was.end), {loc.id});
  }

  lemma {:induction false} ArenaIsLaid(h: Heap, a: nat)
    requires Inv(h) && a < |h.arenas|
    ensures Laid(h.arenas[a])
  {
  }

  lemma {:induction false} SplitPtrs(h: Heap, p: nat, size: nat)
    requires p < |h.ptrs| && InRange(h, h.ptrs[p].loc, size)
    ensures var h', loc, n := DoSplit(h, p, size), h.ptrs[p].loc, |h.ptrs|;
            && |h'.ptrs| == n + 2 && h'.ptrs[..n] == h.ptrs[p := h.ptrs[p].(valid := false)] && h'.freed == h.freed
            && h'.ptrs[n] == Pointer(Loc(loc.arena, h.arenas[loc.arena].next), Raw, true)
            && h'.ptrs[n + 1] == Pointer(Loc(loc.arena, h.arenas[loc.arena].next + 1), Raw, true)
  {
    hide Split;
  }

  lemma {:induction false} TwoNew(h: Heap, h': Heap, n: nat, a: nat, f: Block, g: Block, gone: set<nat>)
    requires Inv(h') && n + 1 < |h'.ptrs| && OnlyEdits(h, h', a, gone, {f, g})
    requires h'.ptrs[n] == Pointer(Loc(a, f.id), Raw, true) && h'.ptrs[n + 1] == Pointer(Loc(a, g.id), Raw, true)
    ensures PointsTo(h', n, a, f) && PointsTo(h', n + 1, a, g)
  {
    hide Inv;
    assert f in h'.arenas[a].blocks && g in h'.arenas[a].blocks;
    NewPointsTo(h', n, a, f);
    NewPointsTo(h', n + 1, a, g);
  }

  /** Both pointers hold allocations of one arena, of which the second follows the first. */
  predicate CanMergePtrs(h: Heap, p: nat, q: nat)
    requires p < |h.ptrs| && q < |h.ptrs|
  {
    var l, m := h.ptrs[p].loc, h.ptrs[q].loc;
    l.arena == m.arena < |h.arenas| && Neighbours(h.arenas[l.arena], l.id, m.id)
  }

  /** One new pointer holds what both held, with nothing in between; both are invalid. */
  ghost predicate MergedInto(h: Heap, h': Heap, p: nat, q: nat)
    requires p < |h.ptrs| && q < |h.ptrs| && Allocated(h, h.ptrs[p].loc) && Allocated(h, h.ptrs[q].loc)
  {
    var a, f, g, n := h.ptrs[p].loc.arena, Range(h, p), Range(h, q), |h.ptrs|;
    var b := Block(h.arenas[a].next, f.start, g.end);
    && |h'.ptrs| == n + 1 && h'.freed == h.freed
    && h'.ptrs[..n] == h.ptrs[p := h.ptrs[p].(valid := false)][q := h.ptrs[q].(valid := false)]
    && f.end == g.start && PointsTo(h', n, a, b) && OnlyEdits(h, h', a, {f.id, g.id}, {b})
  }

  /** merge does this exactly for neighbours; else both pointers are invalid and nothing else changes. */
  lemma {:induction false} MergeGives(h: Heap, p: nat, q: nat)
    requires Inv(h) && p < |h.ptrs| && q < |h.ptrs| && h.ptrs[p].valid && h.ptrs[q].valid
             && h.ptrs[p].loc.arena < |h.arenas|
    ensures Allocated(h, h.ptrs[p].loc) && Allocated(h, h.ptrs[q].loc)
    ensures var l, m := h.ptrs[p].loc, h.ptrs[q].loc;
            CanMergePtrs(h, p, q) <==> l.arena == m.arena && Merge(h.arenas[l.arena], l.id, m.id).Merged?
    ensures var h' := DoMerge(h, p, q);
            if CanMergePtrs(h, p, q) then MergedInto(h, h', p, q)
            else h' == h.(ptrs := h.ptrs[p := h.ptrs[p].(valid := false)][q := h.ptrs[q].(valid := false)])
  {
    var l, m := h.ptrs[p].loc, h.ptrs[q].loc;
    assert Laid(h.arenas[l.arena]) && Allocated(h, l) && Allocated(h, m);
    MergeIsExact(h.arenas[l.arena], l.id, m.id);
    if CanMergePtrs(h, p, q) {
      hide Inv, Laid, Neighbours;
      MergeKeeps(h, p, q);
      MergeEdits(h, p, q);
      hide Merge;
      var h', b := DoMerge(h, p, q), Block(h.arenas[l.arena].next, Range(h, p).start, Range(h, q).end);
      assert b in h'.arenas[l.arena].blocks;
      hide OnlyEdits;
      NewPointsTo(h', |h.ptrs|, l.arena, b);
    }
  }

  lemma {:induction false} MergeEdits(h: Heap, p: nat, q: nat)
    requires p < |h.ptrs| && q < |h.ptrs| && CanMergePtrs(h, p, q) && Laid(h.arenas[h.ptrs[p].loc.arena])
    ensures var a, l, m := h.ptrs[p].loc.arena, h.ptrs[p].loc.id, h.ptrs[q].loc.id;
            var st := h.arenas[a];
            && Live(st, l) && Live(st, m) && Merge(st, l, m).Merged? && |DoMerge(h, p, q).ptrs| == |h.ptrs| + 1
            && OnlyEdits(h, DoMerge(h, p, q), a, {l, m}, {Block(st.next, Get(st, l).start, Get(st, m).end)})
  {
    hide Laid, Neighbours, Merge, Index, OnlyEdits;
    var a, l, m := h.ptrs[p].loc.arena, h.ptrs[p].loc.id, h.ptrs[q].loc.id;
    var st := h.arenas[a];
    MergeReplaces(st, l, m);
    EditsOne(h, DoMerge(h, p, q), a, Merge(st, l, m).st, {l, m},
        {Block(st.next, Get(st, l).start, Get(st, m).end)});
  }

  // ---------------------------------------------------------------- whole runs

  ghost predicate IsRun(heaps: seq<Heap>, steps: seq<Step>) {
    && |heaps| == |steps| + 1
    && forall i :: 0 <= i < |steps| ==>
         Known(heaps[i], steps[i]) && Sound(heaps[i], steps[i]) && heaps[i + 1] == Apply(heaps[i], steps[i])
  }

  lemma {:induction false} RunKeeps(heaps: seq<Heap>, steps: seq<Step>, i: nat)
    requires IsRun(heaps, steps) && Inv(heaps[0]) && i < |heaps|
    ensures Inv(heaps[i])
  {
    if i > 0 {
      RunKeeps(heaps, steps, i - 1);
      assert Known(heaps[i - 1], steps[i - 1]);
      StepKeeps(heaps[i - 1], steps[i - 1]);
    }
  }

  /** A run from an empty heap. */
  ghost predicate FromEmpty(heaps: seq<Heap>, steps: seq<Step>) {
    IsRun(heaps, steps) && heaps[0] == Heap([], [], [])
  }

  lemma {:induction false} FromEmptyKeeps(heaps: seq<Heap>, steps: seq<Step>, i: nat)
    requires FromEmpty(heaps, steps) && i < |heaps|
    ensures Inv(heaps[i])
  {
    assert Inv(heaps[0]);
    RunKeeps(heaps, steps, i);
  }

  /** In every run, no allocation is freed twice, and a freed one is never alive again. */
  lemma {:induction false} NothingIsFreedTwice(heaps: seq<Heap>, steps: seq<Step>, i: nat)
    requires FromEmpty(heaps, steps) && i < |heaps|
    ensures var h := heaps[i];
            && (forall j, k :: 0 <= j < k < |h.freed| ==> h.freed[j] != h.freed[k])
            && (forall j :: 0 <= j < |h.freed| ==> !Allocated(h, h.freed[j]))
  {
    FromEmptyKeeps(heaps, steps, i);
    hide IsRun;
  }

  /** In every run, a valid pointer holds a live allocation, in bounds. */
  lemma {:induction false} ValidPointersAreAlive(heaps: seq<Heap>, steps: seq<Step>, i: nat, p: nat)
    requires FromEmpty(heaps, steps) && i < |heaps| && p < |heaps[i].ptrs| && heaps[i].ptrs[p].valid
    ensures var h := heaps[i];
            && Allocated(h, h.ptrs[p].loc)
            && Range(h, p).start <= Range(h, p).end <= h.arenas[h.ptrs[p].loc.arena].length
  {
    FromEmptyKeeps(heaps, steps, i);
    hide IsRun;
    var h := heaps[i];
    assert Allocated(h, h.ptrs[p].loc) && Laid(h.arenas[h.ptrs[p].loc.arena]);
  }

  /** In every run, two valid pointers hold different allocations, and their ranges are disjoint. */
  lemma {:induction false} PointersStayLinear(heaps: seq<Heap>, steps: seq<Step>, i: nat, p: nat, q: nat)
    requires FromEmpty(heaps, steps) && i < |heaps|
    requires var h := heaps[i]; p < |h.ptrs| && q < |h.ptrs| && p != q && h.ptrs[p].valid && h.ptrs[q].valid
    ensures var h := heaps[i];
            && Allocated(h, h.ptrs[p].loc) && Allocated(h, h.ptrs[q].loc) && h.ptrs[p].loc != h.ptrs[q].loc
            && (h.ptrs[p].loc.arena == h.ptrs[q].loc.arena ==>
                  Range(h, p).end <= Range(h, q).start || Range(h, q).end <= Range(h, p).start)
  {
    FromEmptyKeeps(heaps, steps, i);
    hide IsRun;
    var h := heaps[i];
    assert Allocated(h, h.ptrs[p].loc) && Allocated(h, h.ptrs[q].loc);
    assert h.ptrs[p].loc != h.ptrs[q].loc;
    var st := h.arenas[h.ptrs[p].loc.arena];
    assert Laid(st);
    assert st.blocks[Index(st.blocks, h.ptrs[p].loc.id)] == Range(h, p);
  }

  /** Two overlapping linear_reads of one pointer end with two valid pointers to its allocation. */
  lemma {:induction false} OverlappingLinearReads(h: Heap, p: nat)
    requires Inv(h) && p < |h.ptrs| && h.ptrs[p].valid
    ensures !Inv(Apply(Apply(h, LinearReadDone(p)), LinearReadDone(p)))
  {
    var h1 := Apply(h, LinearReadDone(p));
    var h2 := Apply(h1, LinearReadDone(p));
    var n := |h.ptrs|;
    assert h2.ptrs[n].valid && h2.ptrs[n + 1].valid && h2.ptrs[n].loc == h2.ptrs[n + 1].loc;
  }

  // ---------------------------------------------------------------- split pointers merge again

  /** The step splits, merges or frees the allocation. */
  predicate Consumes(h: Heap, step: Step, loc: Loc)
    requires Known(h, step)
  {
    match step
    case SplitPtr(p, _) => h.ptrs[p].loc == loc
    case MergePtr(p, q) => h.ptrs[p].loc == loc || h.ptrs[q].loc == loc
    case FreePtr(p) => h.ptrs[p].loc == loc
    case _ => false
  }

  /** Halves of a split stay adjacent whatever happens to other allocations. */
  lemma {:induction false} PairStep(h: Heap, step: Step, a: nat, i: nat, f: Block, g: Block) returns (k: nat)
    requires ArenasOk(h) && Known(h, step) && a < |h.arenas| && Halves(h.arenas[a], i, f, g)
    requires !Consumes(h, step, Loc(a, f.id)) && !Consumes(h, step, Loc(a, g.id))
    ensures a < |Apply(h, step).arenas| && Halves(Apply(h, step).arenas[a], k, f, g)
  {
    hide Laid, Allocate, FirstFit, Free, Split, Merge, Halves, Index;
    k := i;
    var st := h.arenas[a];
    assert Laid(st);
    match step
    case Malloc(b, size, alignment) =>
      if b == a && FirstFit(st, 0, 0, size, alignment).At? { k :=
          HalvesStep(st, i, f, g, OpAllocate(size, alignment)); }
    case SplitPtr(p, size) =>
      if h.ptrs[p].valid && h.ptrs[p].loc.arena == a { k := HalvesStep(st, i, f, g, OpSplit(h.ptrs[p].loc.id, size)); }
    case MergePtr(p, q) =>
      var l, m := h.ptrs[p].loc, h.ptrs[q].loc;
      if h.ptrs[p].valid && h.ptrs[q].valid && l.arena == a && m.arena == a && Merge(st, l.id, m.id).Merged? {
        k := HalvesStep(st, i, f, g, OpMerge(l.id, m.id));
      }
    case FreePtr(p) =>
      if h.ptrs[p].valid && h.ptrs[p].loc.arena == a { k := HalvesStep(st, i, f, g, OpFree(h.ptrs[p].loc.id)); }
    case _ =>
  }

  lemma {:induction false} PairRun(heaps: seq<Heap>, steps: seq<Step>, n: nat, a: nat, i: nat, f: Block, g: Block)
      returns (k: nat)
    requires IsRun(heaps, steps) && Inv(heaps[0]) && n < |heaps|
    requires a < |heaps[0].arenas| && Halves(heaps[0].arenas[a], i, f, g)
    requires forall j :: 0 <= j < |steps| ==>
               !Consumes(heaps[j], steps[j], Loc(a, f.id)) && !Consumes(heaps[j], steps[j], Loc(a, g.id))
    ensures a < |heaps[n].arenas| && Halves(heaps[n].arenas[a], k, f, g)
  {
    hide Halves, Apply, Consumes, Known, Sound, Laid, PtrsOk, FreedOk, ArenasOk;
    if n == 0 {
      k := i;
    } else {
      var m := PairRun(heaps, steps, n - 1, a, i, f, g);
      RunKeeps(heaps, steps, n - 1);
      var h, step := heaps[n - 1], steps[n - 1];
      assert Known(h, step) && !Consumes(h, step, Loc(a, f.id)) && !Consumes(h, step, Loc(a, g.id));
      k := PairStep(h, step, a, m, f, g);
    }
  }

  lemma {:induction false} SplitMakesPair(h: Heap, p: nat, size: nat) returns (i: nat)
    requires p < |h.ptrs| && InRange(h, h.ptrs[p].loc, size)
    ensures var loc := h.ptrs[p].loc;
            var st, b := h.arenas[loc.arena], Range(h, p);
            Halves(DoSplit(h, p, size).arenas[loc.arena], i, Block(st.next, b.start, b.start + size),
                Block(st.next + 1, b.start + size, b.end))
  {
    i := Index(h.arenas[h.ptrs[p].loc.arena].blocks, h.ptrs[p].loc.id);
  }

  /** After a pointer is split, and whatever is done with other pointers meanwhile, merging
      whoever holds the halves gives one pointer to exactly the original range. */
  lemma {:induction false} SplitThenMergePointers(h: Heap, p: nat, size: nat, heaps: seq<Heap>, steps: seq<Step>,
      u: nat, v: nat)
    requires Inv(h) && p < |h.ptrs| && h.ptrs[p].valid && InRange(h, h.ptrs[p].loc, size)
    requires IsRun(heaps, steps) && heaps[0] == DoSplit(h, p, size)
    requires var a, id := h.ptrs[p].loc.arena, h.arenas[h.ptrs[p].loc.arena].next;
             && (forall j :: 0 <= j < |steps| ==>
                  !Consumes(heaps[j], steps[j], Loc(a, id)) && !Consumes(heaps[j], steps[j], Loc(a, id + 1)))
             && var end := heaps[|steps|];
                && u < |end.ptrs| && end.ptrs[u].valid && end.ptrs[u].loc == Loc(a, id)
                && v < |end.ptrs| && end.ptrs[v].valid && end.ptrs[v].loc == Loc(a, id + 1)
    ensures var end := heaps[|steps|];
            && Known(end, MergePtr(u, v))
            && var m := Apply(end, MergePtr(u, v));
               && |m.ptrs| == |end.ptrs| + 1 && m.ptrs[|end.ptrs|].valid && Allocated(m, m.ptrs[|end.ptrs|].loc)
               && Range(m, |end.ptrs|).start == Range(h, p).start && Range(m, |end.ptrs|).end == Range(h, p).end
  {
    var a, id, b, end := h.ptrs[p].loc.arena, h.arenas[h.ptrs[p].loc.arena].next, Range(h, p), heaps[|steps|];
    var f, g := Block(id, b.start, b.start + size), Block(id + 1, b.start + size, b.end);
    SplitKeeps(h, p, size);
    var i := SplitMakesPair(h, p, size);
    hide DoSplit, Consumes, Halves, Laid, PtrsOk, FreedOk, Known, Sound, Range;
    var k := PairRun(heaps, steps, |steps|, a, i, f, g);
    RunKeeps(heaps, steps, |steps|);
    hide IsRun;
    MergePair(end, a, k, f, g, u, v);
  }

  lemma {:induction false} MergePair(h: Heap, a: nat, k: nat, f: Block, g: Block, u: nat, v: nat)
    requires ArenasOk(h) && a < |h.arenas| && Halves(h.arenas[a], k, f, g)
    requires u < |h.ptrs| && h.ptrs[u].valid && h.ptrs[u].loc == Loc(a, f.id)
    requires v < |h.ptrs| && h.ptrs[v].valid && h.ptrs[v].loc == Loc(a, g.id)
    ensures Known(h, MergePtr(u, v))
    ensures var m := Apply(h, MergePtr(u, v));
            && |m.ptrs| == |h.ptrs| + 1 && m.ptrs[|h.ptrs|].valid && Allocated(m, m.ptrs[|h.ptrs|].loc)
            && Range(m, |h.ptrs|).start == f.start && Range(m, |h.ptrs|).end == g.end
  {
    var st := h.arenas[a];
    assert Laid(st);
    hide Laid, Merge, Halves, Changes;
    MergeHalves(st, k, f, g);
    MergeChanges(st, f.id, g.id);
  }
}
