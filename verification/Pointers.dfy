/**
 Linear pointers on arena allocations: every operation consumes the pointer objects it is called
 on and hands their allocation to new ones.
 */
module Pointers {
  import opened Allocator

  // ---------------------------------------------------------------- what an arena operation changes

  /** `st'` is `st` without the allocations `gone`, and with all identities in between added. */
  ghost predicate Changes(st: State, st': State, gone: set<nat>) {
    && Laid(st') && st.next <= st'.next && st'.length == st.length
    && (forall id :: id in gone ==> !Live(st', id))
    && (forall id :: 0 <= id < st.next && Live(st, id) && id !in gone ==> Live(st', id) && Get(st', id) == Get(st, id))
    && (forall id :: 0 <= id < st.next && Live(st', id) ==> Live(st, id))
    && (forall id :: st.next <= id < st'.next ==> Live(st', id))
  }

  lemma {:induction false} LiveAt(st: State, k: nat)
    requires Laid(st) && k < |st.blocks|
    ensures Live(st, st.blocks[k].id) && Get(st, st.blocks[k].id) == st.blocks[k]
  {
    IndexUnique(st, k);
  }

  predicate Is(st: State, b: Block) {
    Live(st, b.id) && Get(st, b.id) == b
  }

  function Ids(st: State, i: nat, j: nat): set<nat>
    requires i <= j <= |st.blocks|
  {
    set k | i <= k < j :: st.blocks[k].id
  }

  lemma {:induction false} Survives(st: State, i: nat, j: nat, fill: seq<Block>, id: nat)
    requires Laid(st) && i <= j <= |st.blocks| && Laid(Splice(st, i, j, fill))
    requires Live(st, id) && id !in Ids(st, i, j)
    ensures var st' := Splice(st, i, j, fill); Live(st', id) && Get(st', id) == Get(st, id)
  {
    var k, st' := Index(st.blocks, id), Splice(st, i, j, fill);
    assert k < i || j <= k;
    LiveAt(st', if k < i then k else k - j + i + |fill|);
  }

  lemma {:induction false} Remains(st: State, i: nat, j: nat, fill: seq<Block>, id: nat)
    requires Laid(st) && i <= j <= |st.blocks|
    requires forall k :: 0 <= k < |fill| ==> fill[k].id == st.next + k
    requires Live(Splice(st, i, j, fill), id) && id < st.next
    ensures Live(st, id) && id !in Ids(st, i, j)
  {
    var st' := Splice(st, i, j, fill);
    var k := Index(st'.blocks, id);
    assert k < i || i + |fill| <= k;
    var was := if k < i then k else k - i - |fill| + j;
    assert st.blocks[was].id == id;
    LiveAt(st, was);
  }

  lemma {:induction false} SpliceChanges(st: State, i: nat, j: nat, fill: seq<Block>)
    requires Laid(st) && i <= j <= |st.blocks| && Laid(Splice(st, i, j, fill))
    requires forall k :: 0 <= k < |fill| ==> fill[k].id == st.next + k
    ensures Changes(st, Splice(st, i, j, fill), Ids(st, i, j))
    ensures forall k :: 0 <= k < |fill| ==> Is(Splice(st, i, j, fill), fill[k])
  {
    var st', gone := Splice(st, i, j, fill), Ids(st, i, j);
    forall id | 0 <= id < st.next && Live(st, id) && id !in gone ensures Live(st', id) && Get(st', id) == Get(st, id) {
      Survives(st, i, j, fill, id);
    }
    forall id | 0 <= id < st.next && Live(st', id) ensures Live(st, id) && id !in gone {
      Remains(st, i, j, fill, id);
    }
    forall k | 0 <= k < |fill| ensures Is(st', fill[k]) {
      assert st'.blocks[i + k] == fill[k];
      LiveAt(st', i + k);
    }
    forall id | st.next <= id < st'.next ensures Live(st', id) {
      assert Is(st', fill[id - st.next]);
    }
    forall id | id in gone ensures !Live(st', id) {
      assert id < st.next;
    }
  }

  /** One or two blocks take the place of a run of blocks. */
  lemma {:induction false} OneChanges(st: State, i: nat, j: nat, b: Block, gone: set<nat>)
    requires Laid(st) && i <= j <= |st.blocks| && b.id == st.next && Laid(Splice(st, i, j, [b]))
             && gone == Ids(st, i, j)
    ensures var st' := Splice(st, i, j, [b]); Changes(st, st', gone) && st'.next == st.next + 1 && Is(st', b)
  {
    hide Laid, Changes, Is;
    SpliceChanges(st, i, j, [b]);
    assert Is(Splice(st, i, j, [b]), [b][0]);
  }

  lemma {:induction false} TwoChange(st: State, i: nat, j: nat, b: Block, c: Block, gone: set<nat>)
    requires Laid(st) && i <= j <= |st.blocks| && b.id == st.next && c.id == st.next + 1
             && Laid(Splice(st, i, j, [b, c])) && gone == Ids(st, i, j)
    ensures var st' := Splice(st, i, j, [b, c]);
              Changes(st, st', gone) && st'.next == st.next + 2 && Is(st', b) && Is(st', c)
  {
    hide Laid, Changes, Is;
    SpliceChanges(st, i, j, [b, c]);
    assert Is(Splice(st, i, j, [b, c]), [b, c][0]) && Is(Splice(st, i, j, [b, c]), [b, c][1]);
  }

  lemma {:induction false} IdsOf(st: State, i: nat)
    requires i <= |st.blocks|
    ensures Ids(st, i, i) == {}
    ensures i < |st.blocks| ==> Ids(st, i, i + 1) == {st.blocks[i].id}
    ensures i + 1 < |st.blocks| ==> Ids(st, i, i + 2) == {st.blocks[i].id, st.blocks[i + 1].id}
  {
  }

  lemma {:induction false} AllocateChanges(st: State, size: nat, alignment: nat)
    requires Laid(st) && alignment > 0 && FirstFit(st, 0, 0, size, alignment).At?
    ensures var st', start := Allocate(st, size, alignment), FirstFit(st, 0, 0, size, alignment).start;
            Changes(st, st', {}) && st'.next == st.next + 1 && Is(st', Block(st.next, start, start + size))
  {
    hide Laid, Changes, Is, FirstFit, Ids;
    var place := FirstFit(st, 0, 0, size, alignment);
    FitHasRoom(st, size, alignment);
    hide Room;
    AllocateKeepsLaid(st, size, alignment);
    IdsOf(st, place.index);
    OneChanges(st, place.index, place.index, Block(st.next, place.start, place.start + size), {});
  }

  lemma {:induction false} FreeChanges(st: State, id: nat)
    requires Laid(st) && Live(st, id)
    ensures Changes(st, Free(st, id), {id}) && Free(st, id).next == st.next
  {
    var i := Index(st.blocks, id);
    FreeKeepsLaid(st, id);
    hide Laid, Changes, Is, Ids;
    SpliceChanges(st, i, i + 1, []);
    IdsOf(st, i);
  }

  lemma {:induction false} SplitChanges(st: State, id: nat, size: nat)
    requires Laid(st) && Live(st, id) && Get(st, id).start + size <= Get(st, id).end
    ensures var st', b := Split(st, id, size), Get(st, id);
            && Changes(st, st', {id}) && st'.next == st.next + 2
            && Is(st', Block(st.next, b.start, b.start + size)) && Is(st', Block(st.next + 1, b.start + size, b.end))
  {
    hide Laid, Changes, Is, Ids, Index;
    var i, b := Index(st.blocks, id), Get(st, id);
    SplitKeepsLaid(st, id, size);
    IdsOf(st, i);
    TwoChange(st, i, i + 1, Block(st.next, b.start, b.start + size), Block(st.next + 1, b.start + size, b.end), {id});
  }

  lemma {:induction false} MergeChanges(st: State, a: nat, b: nat)
    requires Laid(st) && Merge(st, a, b).Merged?
    ensures Live(st, a) && Live(st, b)
    ensures var st' := Merge(st, a, b).st;
            && Changes(st, st', {a, b}) && st'.next == st.next + 1
            && Is(st', Block(st.next, Get(st, a).start, Get(st, b).end))
  {
    hide Laid, Changes, Is, Ids, Index;
    var i := Index(st.blocks, a);
    MergeKeepsLaid(st, a, b);
    IdsOf(st, i);
    OneChanges(st, i, i + 2, Block(st.next, Get(st, a).start, Get(st, b).end), {a, b});
  }

  // ---------------------------------------------------------------- pointers

  /** An allocation: its arena, and its identity there. */
  datatype Loc = Loc(arena: nat, id: nat)

  datatype Kind = Raw | Readable | Linear | Written

  datatype Pointer = Pointer(loc: Loc, kind: Kind, valid: bool)

  /** `freed` lists the allocations on which a pointer has called free. */
  datatype Heap = Heap(arenas: seq<State>, ptrs: seq<Pointer>, freed: seq<Loc>)

  predicate Within(h: Heap, loc: Loc) {
    loc.arena < |h.arenas| && loc.id < h.arenas[loc.arena].next
  }

  predicate Allocated(h: Heap, loc: Loc) {
    Within(h, loc) && Live(h.arenas[loc.arena], loc.id)
  }

  predicate Unheld(h: Heap, loc: Loc) {
    forall p :: 0 <= p < |h.ptrs| && h.ptrs[p].valid ==> h.ptrs[p].loc != loc
  }

  ghost predicate PtrsOk(h: Heap) {
    && (forall p :: 0 <= p < |h.ptrs| ==> Within(h, h.ptrs[p].loc))
    && (forall p :: 0 <= p < |h.ptrs| && h.ptrs[p].valid ==> Allocated(h, h.ptrs[p].loc))
    && (forall p, q :: 0 <= p < q < |h.ptrs| && h.ptrs[p].valid && h.ptrs[q].valid ==> h.ptrs[p].loc != h.ptrs[q].loc)
  }

  ghost predicate FreedOk(h: Heap) {
    && (forall i :: 0 <= i < |h.freed| ==> Within(h, h.freed[i]) && !Allocated(h, h.freed[i]))
    && (forall i, j :: 0 <= i < j < |h.freed| ==> h.freed[i] != h.freed[j])
  }

  ghost predicate ArenasOk(h: Heap) {
    forall a :: 0 <= a < |h.arenas| ==> Laid(h.arenas[a])
  }

  ghost predicate Inv(h: Heap) {
    ArenasOk(h) && PtrsOk(h) && FreedOk(h)
  }

  // ---------------------------------------------------------------- the pieces of every operation

  function Invalidate(h: Heap, p: nat): Heap
    requires p < |h.ptrs|
  {
    h.(ptrs := h.ptrs[p := h.ptrs[p].(valid := false)])
  }

  /** A new pointer object for an allocation. */
  function Hold(h: Heap, loc: Loc, kind: Kind): Heap {
    h.(ptrs := h.ptrs + [Pointer(loc, kind, true)])
  }

  function Edit(h: Heap, a: nat, st: State): Heap
    requires a < |h.arenas|
  {
    h.(arenas := h.arenas[a := st])
  }

  lemma {:induction false} InvalidateKeeps(h: Heap, p: nat)
    requires Inv(h) && p < |h.ptrs|
    ensures Inv(Invalidate(h, p))
    ensures h.ptrs[p].valid ==> Unheld(Invalidate(h, p), h.ptrs[p].loc)
  {
  }

  lemma {:induction false} HoldKeeps(h: Heap, loc: Loc, kind: Kind)
    requires Inv(h) && Allocated(h, loc) && Unheld(h, loc)
    ensures Inv(Hold(h, loc, kind))
  {
  }

  lemma {:induction false} EditKeeps(h: Heap, a: nat, st: State, gone: set<nat>)
    requires Inv(h) && a < |h.arenas| && Changes(h.arenas[a], st, gone)
    requires forall id :: id in gone ==> Unheld(h, Loc(a, id))
    ensures Inv(Edit(h, a, st))
    ensures forall id: nat :: h.arenas[a].next <= id < st.next ==>
              Allocated(Edit(h, a, st), Loc(a, id)) && Unheld(Edit(h, a, st), Loc(a, id))
  {
    var h' := Edit(h, a, st);
    EditPtrs(h, a, st, gone);
    EditFreed(h, a, st, gone);
    forall id: nat | h.arenas[a].next <= id < st.next ensures Unheld(h', Loc(a, id)) {
      assert forall p :: 0 <= p < |h.ptrs| ==> Within(h, h.ptrs[p].loc);
    }
  }

  lemma {:induction false} EditPtrs(h: Heap, a: nat, st: State, gone: set<nat>)
    requires PtrsOk(h) && a < |h.arenas| && Changes(h.arenas[a], st, gone)
    requires forall id :: id in gone ==> Unheld(h, Loc(a, id))
    ensures PtrsOk(Edit(h, a, st))
  {
    var h' := Edit(h, a, st);
    forall p | 0 <= p < |h.ptrs| ensures Within(h', h.ptrs[p].loc) {
      assert Within(h, h.ptrs[p].loc);
    }
    forall p | 0 <= p < |h.ptrs| && h.ptrs[p].valid ensures Allocated(h', h.ptrs[p].loc) {
      assert Allocated(h, h.ptrs[p].loc);
      var loc := h.ptrs[p].loc;
      assert loc.arena == a ==> loc.id !in gone;
    }
  }

  lemma {:induction false} EditFreed(h: Heap, a: nat, st: State, gone: set<nat>)
    requires FreedOk(h) && a < |h.arenas| && Changes(h.arenas[a], st, gone)
    ensures FreedOk(Edit(h, a, st))
  {
    var h' := Edit(h, a, st);
    forall i | 0 <= i < |h.freed| ensures Within(h', h.freed[i]) && !Allocated(h', h.freed[i]) {
      assert Within(h, h.freed[i]) && !Allocated(h, h.freed[i]);
    }
  }
}
