/** The objects of `perform_batch`: the two runs of the callable, and the writes after them. */
module BatchRuns {
  import opened Prelude
  import opened Batches
  import opened BulkMalloc
  import Allocator

  /** Stores allocation requests and returns null pointers. */
  class LaterAllocator {
    var allocations: seq<Request>

    constructor ()
      ensures allocations == []
    {
      allocations := [];
    }

    method Malloc(size: nat, alignment: nat) returns (addr: Addr)
      modifies this
      ensures allocations == old(allocations) + [Request(size, alignment)] && addr == 0
    {
      allocations := allocations + [Request(size, alignment)];
      addr := 0;
    }
  }

  datatype Popped = Got(addr: Addr) | WrongSize | Empty

  /** Prefilled with allocations for an exact sequence of calls to malloc. */
  class PrefilledAllocator {
    var allocations: seq<Extent>

    constructor (grants: seq<Extent>)
      ensures allocations == grants
    {
      allocations := grants;
    }

    method Malloc(size: nat, alignment: nat) returns (r: Popped)
      modifies this
      ensures old(allocations) == [] ==> r == Empty && allocations == []
      ensures old(allocations) != [] ==>
                && allocations == old(allocations)[1..]
                && r == if old(allocations)[0].size == size then Got(old(allocations)[0].addr) else WrongSize
    {
      if allocations == [] { return Empty; }
      var first := allocations[0];
      allocations := allocations[1..];
      r := if first.size == size then Got(first.addr) else WrongSize;
    }
  }

  /** The requests of the callable run on null pointers. */
  method FirstRun<R>(p: Program<R>, ghost n: nat) returns (reqs: seq<Request>)
    requires Finishes(p, Nulls(n))
    ensures |reqs| == n && forall i :: 0 <= i < n ==> reqs[i] == Request(Size(p(Nulls(n)[..i])), 1)
  {
    var later := new LaterAllocator();
    var addrs: seq<Addr> := [];
    while !p(addrs).Return?
      invariant |addrs| <= n && addrs == Nulls(n)[..|addrs|] && |later.allocations| == |addrs|
      invariant forall i :: 0 <= i < |addrs| ==> later.allocations[i] == Request(Size(p(Nulls(n)[..i])), 1)
      decreases n - |addrs|
    {
      assert Nulls(n)[..n] == Nulls(n);
      var addr := later.Malloc(Size(p(addrs)), 1);
      addrs := addrs + [addr];
    }
    reqs := later.allocations;
    assert addrs == Nulls(|addrs|);
  }

  /** The callable run on the granted allocations, its writes stored. */
  method SecondRun<R>(p: Program<R>, grants: seq<Extent>) returns (o: Outcome<R>)
    ensures o == Second(p, grants, 0, [])
  {
    var prefilled := new PrefilledAllocator(grants);
    var addrs: seq<Addr>, writes := [], [];
    while !p(addrs).Return?
      invariant |addrs| <= |grants| && addrs == Addrs(grants)[..|addrs|] && prefilled.allocations == grants[|addrs|..]
      invariant Second(p, grants, |addrs|, writes) == Second(p, grants, 0, [])
      decreases |grants| - |addrs|
    {
      var r := prefilled.Malloc(Size(p(addrs)), 1);
      match r
      case Empty => return NoneLeft;
      case WrongSize => return NonDeterministic;
      case Got(addr) =>
        if p(addrs).Ptr? { writes := writes + [Write(addr, p(addrs).data)]; }
        addrs := addrs + [addr];
    }
    o := Finished(p(addrs).value, |addrs|, writes);
  }

  lemma {:induction false} StoreNone(mem: Memory)
    ensures StoreAll(mem, []) == mem
  {
  }

  lemma {:induction false} StoreOneMore(mem: Memory, ws: seq<Write>, w: Write)
    ensures StoreAll(mem, ws + [w]) == Store(StoreAll(mem, ws), w) && multiset(ws + [w]) == multiset(ws) + multiset{w}
  {
    assert (ws + [w])[..|ws|] == ws;
  }

  /** `run_all` of the writes, in whatever order they happen. */
  method WriteAll(mem: Memory, writes: seq<Write>) returns (m: Memory, ghost order: seq<Write>)
    ensures multiset(order) == multiset(writes) && m == StoreAll(mem, order)
  {
    m, order := mem, [];
    hide Store, StoreAll;
    assert m == StoreAll(mem, []) by { StoreNone(mem); }
    var todo := multiset(writes);
    while todo != multiset{}
      invariant multiset(order) + todo == multiset(writes) && m == StoreAll(mem, order)
      decreases |todo|
    {
      var w :| w in todo;
      StoreOneMore(mem, order, w);
      todo, m, order := todo - multiset{w}, Store(m, w), order + [w];
    }
  }

  // ---------------------------------------------------------------- mappings

  datatype Mapping = Mapping(base: Addr, length: nat)

  ghost predicate MappingsApart(ms: seq<Mapping>) {
    forall i, j :: 0 <= i < j < |ms| ==>
         ms[i].base + ms[i].length <= ms[j].base || ms[j].base + ms[j].length <= ms[i].base
  }

  /** Where the arenas of an allocator are mapped. */
  ghost predicate Mapped(arenas: seq<Allocator.State>, ms: seq<Mapping>) {
    && |ms| == |arenas| && MappingsApart(ms)
    && forall i :: 0 <= i < |ms| ==> ms[i].length == arenas[i].length
  }

  function Placed(ms: seq<Mapping>, gs: seq<Grant>): seq<Extent>
    requires forall i :: 0 <= i < |gs| ==> gs[i].arena < |ms| && gs[i].block.start <= gs[i].block.end
  {
    seq(|gs|, i requires 0 <= i < |gs| =>
        Extent(ms[gs[i].arena].base + gs[i].block.start, gs[i].block.end - gs[i].block.start))
  }

  lemma {:induction false} InItsArena(arenas: seq<Allocator.State>, g: Grant, r: Request)
    requires AllLaid(arenas) && r.alignment > 0 && Serves(arenas, g, r)
    ensures g.block.start <= g.block.end <= arenas[g.arena].length
  {
    var blocks := arenas[g.arena].blocks;
    var a :| 0 <= a < |blocks| && blocks[a] == g.block;
  }

  /** Bulk allocations are disjoint in memory. */
  lemma {:induction false} PlacedApart(arenas: seq<Allocator.State>, ms: seq<Mapping>, gs: seq<Grant>,
      reqs: seq<Request>)
    requires AllLaid(arenas) && Mapped(arenas, ms) && Positive(reqs) && ServesAll(arenas, gs, reqs)
    ensures forall i :: 0 <= i < |gs| ==> gs[i].arena < |ms| && gs[i].block.start <= gs[i].block.end
    ensures GrantsApart(Placed(ms, gs)) && forall i :: 0 <= i < |gs| ==> Placed(ms, gs)[i].size == reqs[i].size
  {
    forall i | 0 <= i < |gs| ensures Serves(arenas, gs[i], reqs[i])
        && gs[i].block.start <= gs[i].block.end <= ms[gs[i].arena].length {
      InItsArena(arenas, gs[i], reqs[i]);
    }
    hide AllLaid;
    forall i, j | 0 <= i < j < |gs|
      ensures var p := Placed(ms, gs); p[i].addr + p[i].size <= p[j].addr || p[j].addr + p[j].size <= p[i].addr
    {
      if gs[i].arena == gs[j].arena {
        GrantsAreDisjoint(arenas, gs, reqs, i, j);
      }
    }
  }

  /** The extent is this allocation, where its arena is mapped. */
  ghost predicate Backs(arenas: seq<Allocator.State>, ms: seq<Mapping>, a: nat, b: Allocator.Block, e: Extent) {
    && a < |arenas| && a < |ms| && b in arenas[a].blocks
    && e.addr == ms[a].base + b.start && e.addr + e.size == ms[a].base + b.end
  }

  /** The extent is some live allocation. */
  ghost predicate IsLive(arenas: seq<Allocator.State>, ms: seq<Mapping>, e: Extent) {
    exists a: nat, b: Allocator.Block :: Backs(arenas, ms, a, b, e)
  }

  ghost predicate IsMapped(ms: seq<Mapping>, e: Extent) {
    exists a :: 0 <= a < |ms| && ms[a].base <= e.addr && e.addr + e.size <= ms[a].base + ms[a].length
  }

  lemma {:induction false} BacksIsMapped(arenas: seq<Allocator.State>, ms: seq<Mapping>, a: nat, b: Allocator.Block,
      e: Extent)
    requires AllLaid(arenas) && Mapped(arenas, ms) && Backs(arenas, ms, a, b, e)
    ensures ms[a].base <= e.addr && e.addr + e.size <= ms[a].base + ms[a].length
  {
    Allocator.OneId(arenas[a], b);
    Allocator.Ordered(arenas[a], b.id);
  }

  /** Every address handed out is that of an allocation made for the request. */
  lemma {:induction false} PlacedIsLive(arenas: seq<Allocator.State>, ms: seq<Mapping>, gs: seq<Grant>,
      reqs: seq<Request>, i: nat)
    requires AllLaid(arenas) && Mapped(arenas, ms) && Positive(reqs) && ServesAll(arenas, gs, reqs) && i < |gs|
    requires forall k :: 0 <= k < |gs| ==> gs[k].arena < |ms| && gs[k].block.start <= gs[k].block.end
    ensures Backs(arenas, ms, gs[i].arena, gs[i].block, Placed(ms, gs)[i])
    ensures IsLive(arenas, ms, Placed(ms, gs)[i]) && IsMapped(ms, Placed(ms, gs)[i])
  {
    assert Serves(arenas, gs[i], reqs[i]);
    hide AllLaid;
    assert Backs(arenas, ms, gs[i].arena, gs[i].block, Placed(ms, gs)[i]);
    BacksIsMapped(arenas, ms, gs[i].arena, gs[i].block, Placed(ms, gs)[i]);
  }

  /** It overlaps nothing that was allocated before. */
  lemma {:induction false} PlacedMissesLive(arenas: seq<Allocator.State>, ms: seq<Mapping>,
      before: seq<Allocator.State>, was: seq<Mapping>, gs: seq<Grant>, reqs: seq<Request>, i: nat, e: Extent)
    requires AllLaid(arenas) && Mapped(arenas, ms) && AllLaid(before) && Mapped(before, was) && IsPrefix(was, ms)
    requires Positive(reqs) && ServesAll(arenas, gs, reqs) && Adds(arenas, before, gs) && i < |gs|
    requires forall k :: 0 <= k < |gs| ==> gs[k].arena < |ms| && gs[k].block.start <= gs[k].block.end
    requires IsLive(before, was, e)
    ensures Disjoint(Placed(ms, gs)[i], e)
  {
    var a: nat, b: Allocator.Block :| Backs(before, was, a, b, e);
    hide AllLaid, Adds;
    BacksIsMapped(before, was, a, b, e);
    PlacedIsLive(arenas, ms, gs, reqs, i);
    BacksIsMapped(arenas, ms, gs[i].arena, gs[i].block, Placed(ms, gs)[i]);
    if gs[i].arena == a {
      GrantsMissLive(arenas, before, gs, reqs, i, b);
    } else {
      assert was[a] == ms[a];
      hide ServesAll;
    }
  }

  /** Each extent is a live allocation, inside its mapping, and overlaps no allocation made before. */
  ghost predicate Given(arenas: seq<Allocator.State>, ms: seq<Mapping>, before: seq<Allocator.State>,
      was: seq<Mapping>, grants: seq<Extent>) {
    && GrantsApart(grants)
    && (forall i :: 0 <= i < |grants| ==> IsLive(arenas, ms, grants[i]) && IsMapped(ms, grants[i]))
    && (forall i, e :: 0 <= i < |grants| && IsLive(before, was, e) ==> Disjoint(grants[i], e))
  }

  /** Nothing that was allocated or mapped before is given up or moved. */
  ghost predicate Extends(arenas: seq<Allocator.State>, ms: seq<Mapping>, before: seq<Allocator.State>,
      was: seq<Mapping>) {
    Keeps(arenas, before) && IsPrefix(was, ms) && |ms| <= |was| + 1
  }

  lemma {:induction false} BulkGives(arenas: seq<Allocator.State>, ms: seq<Mapping>, before: seq<Allocator.State>,
      was: seq<Mapping>, gs: seq<Grant>, reqs: seq<Request>)
    requires AllLaid(arenas) && Mapped(arenas, ms) && AllLaid(before) && Mapped(before, was) && IsPrefix(was, ms)
    requires Positive(reqs) && ServesAll(arenas, gs, reqs) && Adds(arenas, before, gs)
    ensures forall i :: 0 <= i < |gs| ==> gs[i].arena < |ms| && gs[i].block.start <= gs[i].block.end
    ensures var grants := Placed(ms, gs);
            && Given(arenas, ms, before, was, grants) && |grants| == |reqs|
            && forall i :: 0 <= i < |reqs| ==> grants[i].size == reqs[i].size
  {
    PlacedApart(arenas, ms, gs, reqs);
    hide AllLaid, Adds, Mapped, IsPrefix, IsLive, IsMapped, GrantsApart, Disjoint;
    var grants := Placed(ms, gs);
    assert |gs| == |reqs|;
    hide ServesAll;
    forall i | 0 <= i < |grants| ensures IsLive(arenas, ms, grants[i]) && IsMapped(ms, grants[i]) {
      PlacedIsLive(arenas, ms, gs, reqs, i);
    }
    forall i, e | 0 <= i < |grants| && IsLive(before, was, e) ensures Disjoint(grants[i], e) {
      PlacedMissesLive(arenas, ms, before, was, gs, reqs, i, e);
    }
  }

  lemma {:induction false} AllOnes(reqs: seq<Request>)
    requires forall i :: 0 <= i < |reqs| ==> reqs[i].alignment == 1
    ensures Descending(reqs) && Positive(reqs) && forall q :: q in reqs ==> q.alignment <= PAGE
  {
  }

  // ---------------------------------------------------------------- perform_batch

  datatype Batched<R> = Done(value: R) | EmptyBatch | Raised

  /** The kernel maps apart from every other mapping. */
  ghost predicate Fair(mmap: (seq<Mapping>, nat) -> Addr) {
    forall ms, length :: MappingsApart(ms) ==> MappingsApart(ms + [Mapping(mmap(ms, length), length)])
  }

  class Batcher {
    const allocator: UnlimitedAllocator
    var mappings: seq<Mapping>
    var mem: Memory

    ghost predicate Valid()
      reads this, allocator
    {
      AllLaid(allocator.arenas) && Mapped(allocator.arenas, mappings)
    }

    constructor ()
      ensures Valid() && fresh(allocator)
    {
      allocator := new UnlimitedAllocator();
      mappings, mem := [], map[];
    }

    /** `bulk_malloc` of unaligned requests, which never fails. */
    method Bulk(reqs: seq<Request>, mmap: (seq<Mapping>, nat) -> Addr) returns (grants: seq<Extent>)
      requires Valid() && reqs != [] && Fair(mmap) && forall i :: 0 <= i < |reqs| ==> reqs[i].alignment == 1
      modifies this, allocator
      ensures Valid() && mem == old(mem) && Extends(allocator.arenas, mappings, old(allocator.arenas), old(mappings))
      ensures Given(allocator.arenas, mappings, old(allocator.arenas), old(mappings), grants)
      ensures |grants| == |reqs| && forall i :: 0 <= i < |reqs| ==> grants[i].size == reqs[i].size
      ensures |mappings| > |old(mappings)| ==>
                var m := mappings[|old(mappings)|]; m.base == mmap(old(mappings), m.length)
    {
      hide AllLaid, ServesAll, Adds, Descending, Scanned, Keeps, Fair, Mapped, Given, Placed, IsPrefix, Positive;
      ghost var before, was := allocator.arenas, mappings;
      AllOnes(reqs);
      var r := allocator.BulkMalloc(reqs);
      MapFresh(mmap, before);
      BulkGives(allocator.arenas, mappings, before, was, r.grants, reqs);
      grants := Placed(mappings, r.grants);
    }

    /** The mapping of the arena that `_bulk_malloc` has added, if it has. */
    method MapFresh(mmap: (seq<Mapping>, nat) -> Addr, ghost before: seq<Allocator.State>)
      requires AllLaid(allocator.arenas) && Mapped(before, mappings) && Fair(mmap)
      requires Keeps(allocator.arenas, before) && |allocator.arenas| <= |before| + 1
      modifies this`mappings
      ensures Valid() && IsPrefix(old(mappings), mappings) && |mappings| <= |old(mappings)| + 1
      ensures |mappings| > |old(mappings)| ==>
                var m := mappings[|old(mappings)|]; m.base == mmap(old(mappings), m.length)
    {
      var arenas := allocator.arenas;
      hide AllLaid;
      if |arenas| > |mappings| {
        assert MappingsApart(mappings);
        var length := arenas[|mappings|].length;
        mappings := mappings + [Mapping(mmap(mappings, length), length)];
      }
      hide Fair, MappingsApart;
      forall i | 0 <= i < |before| ensures mappings[i].length == arenas[i].length {
        assert KeepsArena(arenas[i], before[i]);
      }
    }

    /** A callable that finishes on null pointers after `n` allocations. On success memory is as
        direct calls would leave it, with every allocation made before as it was; a callable that
        does not look at addresses never raises. With no allocations at all, `_bulk_malloc` indexes
        an empty list if there is an arena. */
    method PerformBatch<R>(p: Program<R>, ghost n: nat, mmap: (seq<Mapping>, nat) -> Addr)
      returns (r: Batched<R>, grants: seq<Extent>, ghost used: nat)
      requires Valid() && Finishes(p, Nulls(n)) && Fair(mmap)
      modifies this, allocator
      ensures Valid() && Extends(allocator.arenas, mappings, old(allocator.arenas), old(mappings))
      ensures Given(allocator.arenas, mappings, old(allocator.arenas), old(mappings), grants)
      ensures r.Done? ==>
                && AsAsked(p, grants) && RunsTo(p, grants, used)
                && r.value == p(Addrs(grants)[..used]).value && mem == Direct(p, Addrs(grants)[..used], old(mem))
      ensures forall e :: IsLive(old(allocator.arenas), old(mappings), e) ==> SameBytes(mem, old(mem), e)
      ensures !r.Done? ==> mem == old(mem)
      ensures r.EmptyBatch? <==> n == 0 && old(mappings) != []
      ensures r.Raised? ==> forall k :: !RunsTo(p, grants, k)
      ensures Oblivious(p) && n > 0 ==> r.Done? && used == n
    {
      var reqs := FirstRun(p, n);
      ghost var before, was, memory := allocator.arenas, mappings, mem;
      grants, used := [], 0;
      if reqs != [] {
        grants := Bulk(reqs, mmap);
      } else if mappings != [] {
        return EmptyBatch, [], 0;
      }
      assert AsAsked(p, grants);
      hide Valid, Finishes, Fair, AsAsked, RunsTo, Oblivious, IsLive, IsMapped, SameBytes, Keeps, IsPrefix;
      r, used := Perform(p, grants);
      if Oblivious(p) { ObliviousNeverRaises(p, grants); }
      forall e | IsLive(before, was, e) ensures SameBytes(mem, memory, e) {
        if r.Done? { WritesNowhereElse(p, grants, used, memory, e); } else { Unchanged(memory, e); }
      }
    }

    lemma {:induction false} Unchanged(m: Memory, e: Extent)
      ensures SameBytes(m, m, e)
    {
    }

    /** The second run and the writes. */
    method Perform<R>(p: Program<R>, grants: seq<Extent>) returns (r: Batched<R>, ghost used: nat)
      requires Valid() && GrantsApart(grants)
      modifies this`mem
      ensures Valid() && !r.EmptyBatch?
      ensures r.Done? ==>
                RunsTo(p, grants, used) && r.value == p(Addrs(grants)[..used]).value
                    && mem == Direct(p, Addrs(grants)[..used], old(mem))
      ensures r.Done? ==> forall k: nat :: RunsTo(p, grants, k) ==> k == used
      ensures r.Raised? ==> mem == old(mem) && forall k :: !RunsTo(p, grants, k)
    {
      var o := SecondRun(p, grants);
      FinishesIffAgrees(p, grants);
      if !o.Finished? { return Raised, 0; }
      ghost var order;
      ghost var was := mem;
      mem, order := WriteAll(mem, o.writes);
      BatchMeansDirect(p, grants, was, order);
      forall k: nat | RunsTo(p, grants, k) ensures k == o.used { SecondFinishes(p, grants, k); }
      r, used := Done(o.value), o.used;
    }
  }
}
