/** Stack preparation: `write_to_end`, the two checks of `clone`, and its merge afterwards. */
module Stacks {
  import opened Allocator
  import opened Pointers
  import opened PointerRuns

  /** The address behind a pointer, in an arena mapped at `base`. */
  function Near(h: Heap, p: nat, base: nat): nat
    requires p < |h.ptrs| && Allocated(h, h.ptrs[p].loc)
  {
    base + Range(h, p).start
  }

  function SizeOf(h: Heap, p: nat): int
    requires p < |h.ptrs| && Allocated(h, h.ptrs[p].loc)
  {
    Range(h, p).end - Range(h, p).start
  }

  /** Where split_from_end splits; the callee does not check that this is not negative. */
  function SplitPoint(near: nat, total: int, size: nat, alignment: nat): int
    requires alignment > 0
  {
    total - size - (near + size) % alignment
  }

  lemma {:induction false} ModShift(q: int, m: int, d: nat)
    requires d > 0
    ensures (q * d + m) % d == m % d
  {
    assert q * d + m == (q + m / d) * d + m % d;
    ModUnique(q + m / d, m % d, q * d + m, d);
  }

  /** The right part is aligned, at whatever address, exactly when the buffer's size minus twice
      the value's is a multiple of the alignment. */
  lemma {:induction false} RightPartAligned(near: nat, total: int, size: nat, alignment: nat)
    requires alignment > 0
    ensures (near + SplitPoint(near, total, size, alignment)) % alignment == 0 <==> (total - 2 * size) % alignment == 0
  {
    var x := near + size;
    assert near + SplitPoint(near, total, size, alignment) == (x / alignment) * alignment + (total - 2 * size);
    ModShift(x / alignment, total - 2 * size, alignment);
  }

  predicate HasRoom(h: Heap, p: nat, base: nat, size: nat, alignment: nat) {
    && p < |h.ptrs| && Allocated(h, h.ptrs[p].loc) && h.ptrs[p].valid && alignment > 0
    && size + (Near(h, p, base) + size) % alignment <= SizeOf(h, p)
  }

  /** `write_to_end`: split, then write, which makes a third pointer. */
  function WriteToEnd(h: Heap, p: nat, base: nat, size: nat, alignment: nat): Heap
    requires HasRoom(h, p, base, size, alignment)
  {
    var s := DoSplit(h, p, SplitPoint(Near(h, p, base), SizeOf(h, p), size, alignment));
    Rehold(s, |h.ptrs| + 1, Written)
  }

  /** The checks of `clone`. */
  predicate CloneAccepts(h: Heap, stack: nat, data: nat, base: nat)
    requires stack < |h.ptrs| && Allocated(h, h.ptrs[stack].loc) && data < |h.ptrs| && Allocated(h, h.ptrs[data].loc)
  {
    Near(h, data, base) % 16 == 0 && Near(h, stack, base) + SizeOf(h, stack) == Near(h, data, base)
  }

  lemma {:induction false} WriteToEndPair(h: Heap, p: nat, base: nat, size: nat, alignment: nat)
    requires Inv(h) && HasRoom(h, p, base, size, alignment)
    ensures var s, n := WriteToEnd(h, p, base, size, alignment), |h.ptrs|;
            var at := SplitPoint(Near(h, p, base), SizeOf(h, p), size, alignment);
            && Inv(s) && |s.ptrs| == n + 3 && s.ptrs[n].valid && s.ptrs[n + 2].valid && s.ptrs[n + 2].kind == Written
            && Allocated(s, s.ptrs[n].loc) && Allocated(s, s.ptrs[n + 2].loc)
            && Range(s, n).start == Range(h, p).start
                && Range(s, n).end == Range(s, n + 2).start == Range(h, p).start + at
            && Range(s, n + 2).end == Range(h, p).end
  {
    var at := SplitPoint(Near(h, p, base), SizeOf(h, p), size, alignment);
    var loc, n := h.ptrs[p].loc, |h.ptrs|;
    var st := h.arenas[loc.arena];
    SplitKeeps(h, p, at);
    assert Laid(st);
    hide Inv, Laid, Split, Changes;
    SplitChanges(st, loc.id, at);
    var s := DoSplit(h, p, at);
    assert s.ptrs[n + 1].valid && s.ptrs[n + 1].loc == Loc(loc.arena, st.next + 1);
    ReholdKeeps(s, n + 1, Written);
  }

  /** The prepared stack passes clone's checks at every address if and only if the sizes fit
      the 16-byte alignment. */
  lemma {:induction false} PreparedStackIsAccepted(h: Heap, p: nat, base: nat, size: nat)
    requires Inv(h) && HasRoom(h, p, base, size, 16)
    ensures var s, n := WriteToEnd(h, p, base, size, 16), |h.ptrs|;
            && |s.ptrs| == n + 3 && Allocated(s, s.ptrs[n].loc) && Allocated(s, s.ptrs[n + 2].loc)
            && (CloneAccepts(s, n, n + 2, base) <==> (SizeOf(h, p) - 2 * size) % 16 == 0)
            && size <= SizeOf(s, n + 2)
  {
    hide Inv, WriteToEnd, Range, Allocated;
    WriteToEndPair(h, p, base, size, 16);
    RightPartAligned(Near(h, p, base), SizeOf(h, p), size, 16);
  }

  /** The stack and trampoline sizes of the repository fit at every address. */
  lemma {:induction false} TrampolineStackFits(h: Heap, p: nat, base: nat)
    requires Inv(h) && p < |h.ptrs| && h.ptrs[p].valid && Allocated(h, h.ptrs[p].loc) && SizeOf(h, p) == 4096
    ensures HasRoom(h, p, base, 64, 16)
    ensures var s, n := WriteToEnd(h, p, base, 64, 16), |h.ptrs|;
            |s.ptrs| == n + 3 && Allocated(s, s.ptrs[n].loc) && Allocated(s, s.ptrs[n + 2].loc)
                && CloneAccepts(s, n, n + 2, base)
  {
    PreparedStackIsAccepted(h, p, base, 64);
  }

  /** Clone's merge after the call rebuilds the buffer, whatever happened to other pointers. */
  lemma {:induction false} CloneRebuildsStack(h: Heap, p: nat, base: nat, size: nat, heaps: seq<Heap>, steps: seq<Step>)
    requires Inv(h) && HasRoom(h, p, base, size, 16)
    requires var n, a, id := |h.ptrs|, h.ptrs[p].loc.arena, h.arenas[h.ptrs[p].loc.arena].next;
             && IsRun(heaps, steps) && heaps[0] == WriteToEnd(h, p, base, size, 16)
             && (forall j :: 0 <= j < |steps| ==>
                  !Consumes(heaps[j], steps[j], Loc(a, id)) && !Consumes(heaps[j], steps[j], Loc(a, id + 1)))
             && var end := heaps[|steps|];
                && n + 2 < |end.ptrs| && end.ptrs[n].valid && end.ptrs[n + 2].valid
                && end.ptrs[n].loc == Loc(a, id) && end.ptrs[n + 2].loc == Loc(a, id + 1)
    ensures var n, end := |h.ptrs|, heaps[|steps|];
            && Known(end, MergePtr(n, n + 2))
            && var m := PointerRuns.Apply(end, MergePtr(n, n + 2));
               && |m.ptrs| == |end.ptrs| + 1 && m.ptrs[|end.ptrs|].valid && Allocated(m, m.ptrs[|end.ptrs|].loc)
               && Range(m, |end.ptrs|).start == Range(h, p).start && Range(m, |end.ptrs|).end == Range(h, p).end
  {
    var at := SplitPoint(Near(h, p, base), SizeOf(h, p), size, 16);
    var n, split, write := |h.ptrs|, DoSplit(h, p, at), Convert(|h.ptrs| + 1, Written);
    var a, id := h.ptrs[p].loc.arena, h.arenas[h.ptrs[p].loc.arena].next;
    assert PointerRuns.Apply(split, write) == heaps[0];
    var hs, ss := [split] + heaps, [write] + steps;
    forall j | 0 <= j < |ss|
      ensures Known(hs[j], ss[j]) && Sound(hs[j], ss[j]) && hs[j + 1] == PointerRuns.Apply(hs[j], ss[j])
      ensures !Consumes(hs[j], ss[j], Loc(a, id)) && !Consumes(hs[j], ss[j], Loc(a, id + 1))
    {
      if j > 0 { assert hs[j] == heaps[j - 1] && ss[j] == steps[j - 1]; }
    }
    hide Inv, DoSplit, WriteToEnd, Known, Sound, PointerRuns.Apply, Consumes, Range;
    SplitThenMergePointers(h, p, at, hs, ss, n, n + 2);
  }
}
