/**
 The mutable arena object: the allocation list is edited in place by allocate, free, split
 and merge, and every edit is the one the functions of `Allocator` describe.
 */
module Arenas {
  import opened Prelude
  import opened Allocator

  /** `Arena` and the list edits its `Allocation`s make in it. */
  class Arena {
    const length: nat
    var allocations: seq<Block>
    var next: nat

    ghost function View(): State
      reads this
    {
      State(length, allocations, next)
    }

    constructor (length: nat)
      ensures View() == State(length, [], 0) && Laid(View())
    {
      this.length := length;
      allocations, next := [], 0;
    }

    method Allocate(size: nat, alignment: nat) returns (r: Option<Block>)
      requires Laid(View()) && alignment > 0
      modifies this
      ensures View() == Allocator.Allocate(old(View()), size, alignment) && Laid(View())
      ensures r.None? <==> NoRoom(old(View()), size, alignment)
      ensures r.Some? ==>
                && r.value in allocations && r.value.id == old(next)
                && r.value.end == r.value.start + size && LowestRoom(old(View()), r.value.start, size, alignment)
      ensures r.Some? ==> forall b :: b in allocations <==> b in old(allocations) || b == r.value
      ensures r.None? ==> allocations == old(allocations)
    {
      ghost var st := View();
      hide Laid, Available;
      AllocateKeepsLaid(st, size, alignment);
      AllocateAdds(st, size, alignment);
      FirstFitIsLowest(st, size, alignment);
      var newstart: nat, i: nat := 0, 0;
      while i < |allocations|
        invariant i <= |allocations| && View() == st
        invariant FirstFit(st, 0, 0, size, alignment) == FirstFit(st, i, newstart, size, alignment)
      {
        if newstart + size <= allocations[i].start {
          var b := Block(next, newstart, newstart + size);
          allocations, next := allocations[..i] + [b] + allocations[i..], next + 1;
          return Some(b);
        }
        newstart := Align(allocations[i].end, alignment);
        i := i + 1;
      }
      if newstart + size <= length {
        var b := Block(next, newstart, newstart + size);
        assert allocations[..i] + [b] + allocations[i..] == allocations + [b];
        allocations, next := allocations + [b], next + 1;
        return Some(b);
      }
      return None;
    }

    /** Freeing a freed allocation does nothing. */
    method Free(id: nat)
      requires Laid(View())
      modifies this
      ensures View() == Allocator.Free(old(View()), id) && Laid(View())
      ensures forall b :: b in allocations <==> b in old(allocations) && b.id != id
    {
      FreeKeepsLaid(View(), id);
      FreeRemoves(View(), id);
      hide Laid;
      var i := Index(allocations, id);
      if i < |allocations| {
        assert allocations[..i] + [] + allocations[i + 1..] == allocations[..i] + allocations[i + 1..];
        allocations := allocations[..i] + allocations[i + 1..];
      }
    }

    method Split(id: nat, size: nat) returns (first: Block, second: Block)
      requires Laid(View()) && Live(View(), id) && Get(View(), id).start + size <= Get(View(), id).end
      modifies this
      ensures View() == Allocator.Split(old(View()), id, size) && Laid(View())
      ensures first.id == old(next) && second.id == old(next) + 1
      ensures first.start == Get(old(View()), id).start && second.start == first.start + size
      ensures second.end == Get(old(View()), id).end && first.end == first.start + size
      ensures forall b :: b in allocations <==> (b in old(allocations) && b.id != id) || b == first || b == second
    {
      SplitKeepsLaid(View(), id, size);
      SplitReplaces(View(), id, size);
      hide Laid;
      var i := Index(allocations, id);
      var b := allocations[i];
      first, second := Block(next, b.start, b.start + size), Block(next + 1, b.start + size, b.end);
      allocations, next := allocations[..i] + [first, second] + allocations[i + 1..], next + 2;
    }

    /** Accepted exactly for two live allocations of which the second follows the first, in the list
        and in memory; what both held is then one allocation. */
    method Merge(a: nat, b: nat) returns (r: Option<Block>)
      requires Laid(View())
      modifies this
      ensures Laid(View())
      ensures r.Some? <==> Neighbours(old(View()), a, b)
      ensures r.None? ==> View() == old(View())
      ensures r.Some? ==>
                && Live(old(View()), a) && Live(old(View()), b)
                && r.value == Block(old(next), Get(old(View()), a).start, Get(old(View()), b).end)
                && (forall x :: x in allocations <==> (x in old(allocations) && x.id != a && x.id != b) || x == r.value)
      ensures r.Some? ==> View() == Allocator.Merge(old(View()), a, b).st
      ensures forall x: nat :: Held(View(), x) <==> Held(old(View()), x)
    {
      ghost var was := View();
      MergeIsExact(was, a, b);
      hide Laid, Neighbours, Held, Index;
      var i, j := Index(allocations, a), Index(allocations, b);
      if i == |allocations| || j == |allocations| || allocations[i].end != allocations[j].start || i + 1 != j {
        return None;
      }
      Merges(was, a, b);
      var m := Block(next, allocations[i].start, allocations[j].end);
      allocations, next := allocations[..i] + [m] + allocations[j + 1..], next + 1;
      assert View() == Allocator.Merge(was, a, b).st;
      hide *;
      return Some(m);
    }
  }

  lemma {:induction false} Merges(st: State, a: nat, b: nat)
    requires Laid(st) && Neighbours(st, a, b)
    ensures Live(st, a) && Live(st, b)
    ensures var i, j, m := Index(st.blocks, a), Index(st.blocks, b), Block(st.next, Get(st, a).start, Get(st, b).end);
            && Allocator.Merge(st, a, b) ==
                Merged(State(st.length, st.blocks[..i] + [m] + st.blocks[j + 1..], st.next + 1))
            && (forall x :: x in Allocator.Merge(st, a, b).st.blocks <==>
                 (x in st.blocks && x.id != a && x.id != b) || x == m)
    ensures Laid(Allocator.Merge(st, a, b).st)
    ensures forall x: nat :: Held(Allocator.Merge(st, a, b).st, x) <==> Held(st, x)
  {
    MergeReplaces(st, a, b);
    MergeKeepsLaid(st, a, b);
    hide Laid, Neighbours, Held, Index;
    forall x: nat ensures Held(Allocator.Merge(st, a, b).st, x) <==> Held(st, x) { MergeBytes(st, a, b, x); }
  }
}
