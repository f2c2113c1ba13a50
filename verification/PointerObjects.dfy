/** The pointer objects, updated in place: each method does what `PointerRuns.Apply` says. */
module PointerObjects {
  import opened Allocator
  import opened Pointers
  import opened PointerRuns

  datatype Result<T> = Ok(value: T) | UseAfterFree | OutOfSpace | CannotMerge

  class PointerTable {
    var arenas: seq<State>
    var ptrs: seq<Pointer>
    ghost var freed: seq<Loc>

    ghost function View(): Heap
      reads this
    {
      Heap(arenas, ptrs, freed)
    }

    constructor ()
      ensures View() == Heap([], [], []) && Inv(View())
    {
      arenas, ptrs, freed := [], [], [];
    }

    method Allocate(a: nat, size: nat, alignment: nat) returns (r: Result<nat>)
      requires Inv(View()) && Known(View(), Malloc(a, size, alignment))
      modifies this
      ensures View() == PointerRuns.Apply(old(View()), Malloc(a, size, alignment)) && Inv(View())
      ensures r == if NoRoom(old(arenas)[a], size, alignment) then OutOfSpace else Ok(|old(ptrs)|)
      ensures if r.Ok? then Gave(old(View()), View(), a, size, alignment) else View() == old(View())
    {
      hide Inv, Laid, Gave, NoRoom, FirstFit;
      StepKeeps(View(), Malloc(a, size, alignment));
      MallocGives(View(), a, size, alignment);
      if FirstFit(arenas[a], 0, 0, size, alignment).NoSpace? { return OutOfSpace; }
      var id := arenas[a].next;
      arenas := arenas[a := Allocator.Allocate(arenas[a], size, alignment)];
      ptrs := ptrs + [Pointer(Loc(a, id), Raw, true)];
      r := Ok(|ptrs| - 1);
    }

    method Split(p: nat, size: nat) returns (r: Result<(nat, nat)>)
      requires Inv(View()) && Known(View(), SplitPtr(p, size))
      modifies this
      ensures View() == PointerRuns.Apply(old(View()), SplitPtr(p, size)) && Inv(View())
      ensures r == if old(ptrs)[p].valid then Ok((|old(ptrs)|, |old(ptrs)| + 1)) else UseAfterFree
      ensures r.Ok? ==> Allocated(old(View()), old(ptrs)[p].loc) && SplitInto(old(View()), View(), p, size)
      ensures !r.Ok? ==> View() == old(View())
    {
      hide Inv, SplitInto;
      StepKeeps(View(), SplitPtr(p, size));
      if !ptrs[p].valid { return UseAfterFree; }
      SplitGives(View(), p, size);
      ptrs := ptrs[p := ptrs[p].(valid := false)];
      var loc := ptrs[p].loc;
      var id := arenas[loc.arena].next;
      arenas := arenas[loc.arena := Allocator.Split(arenas[loc.arena], loc.id, size)];
      ptrs := ptrs + [Pointer(Loc(loc.arena, id), Raw, true)];
      ptrs := ptrs + [Pointer(Loc(loc.arena, id + 1), Raw, true)];
      r := Ok((|ptrs| - 2, |ptrs| - 1));
    }

    /** One pointer to what both held, exactly if nothing lies between and both are valid. When the
        allocations refuse, both pointers are already invalid. */
    method Merge(p: nat, q: nat) returns (r: Result<nat>)
      requires Inv(View()) && Known(View(), MergePtr(p, q))
      modifies this
      ensures View() == PointerRuns.Apply(old(View()), MergePtr(p, q)) && Inv(View())
      ensures r == UseAfterFree <==> !old(ptrs)[p].valid || !old(ptrs)[q].valid
      ensures r == UseAfterFree ==> View() == old(View())
      ensures r == CannotMerge ==> !ptrs[p].valid && !ptrs[q].valid && arenas == old(arenas)
      ensures r.Ok? <==> old(ptrs)[p].valid && old(ptrs)[q].valid && CanMergePtrs(old(View()), p, q)
      ensures r.Ok? ==>
                && Allocated(old(View()), old(ptrs)[p].loc) && Allocated(old(View()), old(ptrs)[q].loc)
                && r.value == |old(ptrs)| && MergedInto(old(View()), View(), p, q)
    {
      hide Inv, MergedInto, CanMergePtrs;
      StepKeeps(View(), MergePtr(p, q));
      if ptrs[p].valid && ptrs[q].valid { MergeGives(View(), p, q); }
      if !ptrs[p].valid || !ptrs[q].valid { return UseAfterFree; }
      ptrs := ptrs[p := ptrs[p].(valid := false)];
      ptrs := ptrs[q := ptrs[q].(valid := false)];
      var l, m := ptrs[p].loc, ptrs[q].loc;
      if l.arena != m.arena { return CannotMerge; }
      var merged := Allocator.Merge(arenas[l.arena], l.id, m.id);
      if merged.Refused? { return CannotMerge; }
      var id := arenas[l.arena].next;
      arenas := arenas[l.arena := merged.st];
      ptrs := ptrs + [Pointer(Loc(l.arena, id), Raw, true)];
      r := Ok(|ptrs| - 1);
    }

    /** `_wrote`, `_readable`, `_linearize`, `_reinterpret`. */
    method ConvertTo(p: nat, kind: Kind) returns (r: Result<nat>)
      requires Inv(View()) && p < |ptrs|
      modifies this
      ensures View() == PointerRuns.Apply(old(View()), Convert(p, kind)) && Inv(View())
      ensures r == if old(ptrs)[p].valid then Ok(|old(ptrs)|) else UseAfterFree
      ensures !r.Ok? ==> View() == old(View())
      ensures r.Ok? ==>
                && ptrs == old(ptrs)[p := old(ptrs)[p].(valid := false)] + [Pointer(old(ptrs)[p].loc, kind, true)]
                && arenas == old(arenas) && freed == old(freed)
    {
      StepKeeps(View(), Convert(p, kind));
      hide Inv;
      if !ptrs[p].valid { return UseAfterFree; }
      ptrs := ptrs[p := ptrs[p].(valid := false)];
      ptrs := ptrs + [Pointer(ptrs[p].loc, kind, true)];
      r := Ok(|ptrs| - 1);
    }

    method Free(p: nat)
      requires Inv(View()) && p < |ptrs|
      modifies this
      ensures p < |old(ptrs)| && Known(old(View()), FreePtr(p))
      ensures View() == PointerRuns.Apply(old(View()), FreePtr(p)) && Inv(View())
      ensures !old(ptrs)[p].valid ==> View() == old(View())
      ensures old(ptrs)[p].valid ==> GaveBack(old(View()), View(), p)
    {
      assert Within(View(), ptrs[p].loc);
      StepKeeps(View(), FreePtr(p));
      if ptrs[p].valid { FreeGivesBack(View(), p); }
      hide Inv, GaveBack;
      if ptrs[p].valid {
        ptrs := ptrs[p := ptrs[p].(valid := false)];
        var loc := ptrs[p].loc;
        arenas := arenas[loc.arena := Allocator.Free(arenas[loc.arena], loc.id)];
        freed := freed + [loc];
      }
    }

    /** What linear_read does after its read has returned. */
    method FinishLinearRead(p: nat) returns (q: nat)
      requires Inv(View()) && p < |ptrs|
      modifies this
      ensures View() == PointerRuns.Apply(old(View()), LinearReadDone(p)) && q == |old(ptrs)|
      ensures arenas == old(arenas) && ptrs == old(ptrs)[p := old(ptrs)[p].(valid := false)]
                                                + [Pointer(old(ptrs)[p].loc, Raw, true)]
      ensures Inv(View()) <==> Sound(old(View()), LinearReadDone(p))
    {
      ReholdKeeps(View(), p, Raw);
      hide Inv;
      ptrs := ptrs[p := ptrs[p].(valid := false)];
      ptrs := ptrs + [Pointer(ptrs[p].loc, Raw, true)];
      q := |ptrs| - 1;
    }
  }
}
