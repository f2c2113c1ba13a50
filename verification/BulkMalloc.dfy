/**
 `UnlimitedAllocator._bulk_malloc`: one attempt per existing arena, then one fresh mapping,
 sized by rounding every remaining request up to its alignment, for all the rest.
 */
module BulkMalloc {
  import opened Allocator

  const PAGE := 4096

  datatype Request = Request(size: nat, alignment: nat)

  predicate Positive(reqs: seq<Request>) {
    forall i :: 0 <= i < |reqs| ==> reqs[i].alignment > 0
  }

  /** Bytes asked of mmap for these requests, before rounding up to whole pages. */
  function Demand(reqs: seq<Request>): nat
    requires Positive(reqs)
  {
    if reqs == [] then 0
    else Demand(reqs[..|reqs| - 1]) + Align(reqs[|reqs| - 1].size, reqs[|reqs| - 1].alignment)
  }

  /** Each alignment divides every earlier one; in particular, all equal. */
  predicate Descending(reqs: seq<Request>) {
    && Positive(reqs)
    && (forall i, j :: 0 <= i < j < |reqs| ==> reqs[i].alignment % reqs[j].alignment == 0)
  }

  // ---------------------------------------------------------------- a fresh arena is big enough

  lemma {:induction false} MultipleOfMultiple(x: nat, a: nat, d: nat)
    requires a > 0 && d > 0 && x % a == 0 && a % d == 0
    ensures x % d == 0
  {
    var q, k := x / a, a / d;
    assert x == q * (k * d) == (q * k) * d;
    ModUnique(q * k, 0, x, d);
  }

  lemma {:induction false} SumOfMultiples(x: nat, y: nat, d: nat)
    requires d > 0 && x % d == 0 && y % d == 0
    ensures (x + y) % d == 0
  {
    assert x + y == (x / d + y / d) * d;
    ModUnique(x / d + y / d, 0, x + y, d);
  }

  lemma {:induction false} DemandIsMultiple(reqs: seq<Request>, d: nat)
    requires Positive(reqs)
    requires d > 0 && forall i :: 0 <= i < |reqs| ==> reqs[i].alignment % d == 0
    ensures Demand(reqs) % d == 0
  {
    if reqs != [] {
      var last := reqs[|reqs| - 1];
      DemandIsMultiple(reqs[..|reqs| - 1], d);
      AlignIsLeastMultiple(last.size, last.alignment);
      MultipleOfMultiple(Align(last.size, last.alignment), last.alignment, d);
      SumOfMultiples(Demand(reqs[..|reqs| - 1]), Align(last.size, last.alignment), d);
    }
  }

  predicate Below(st: State, bound: nat) {
    forall i :: 0 <= i < |st.blocks| ==> st.blocks[i].end <= bound
  }

  /** Space above everything allocated so far is found, or something lower is. */
  lemma {:induction false} FitsAbove(st: State, bound: nat, r: Request)
    requires Laid(st) && Below(st, bound) && r.alignment > 0
    requires bound % r.alignment == 0 && bound + r.size <= st.length
    ensures var place := FirstFit(st, 0, 0, r.size, r.alignment);
            place.At? && place.start <= bound && place.start % r.alignment == 0
            && Below(Allocate(st, r.size, r.alignment), bound + r.size)
  {
    FirstFitIsLowest(st, r.size, r.alignment);
    assert Available(st, bound, r.size, r.alignment);
  }

  /** Allocating the requests one after another, or None at the first OutOfSpaceError. */
  function AllocateAll(st: State, reqs: seq<Request>): (r: (bool, State))
    requires Laid(st) && Positive(reqs)
    ensures Laid(r.1)
    decreases |reqs|
  {
    if reqs == [] then (true, st)
    else
      var (ok, before) := AllocateAll(st, reqs[..|reqs| - 1]);
      var last := reqs[|reqs| - 1];
      AllocateKeepsLaid(before, last.size, last.alignment);
      if !ok || FirstFit(before, 0, 0, last.size, last.alignment).NoSpace? then (false, before)
      else (true, Allocate(before, last.size, last.alignment))
  }

  /** One more request after a successful prefix. */
  lemma {:induction false} AllocateOneMore(st: State, reqs: seq<Request>, q: Request, before: State)
    requires Laid(st) && q.alignment > 0 && Positive(reqs)
    requires AllocateAll(st, reqs) == (true, before)
    ensures var place := FirstFit(before, 0, 0, q.size, q.alignment);
            AllocateAll(st, reqs + [q]) ==
            if place.NoSpace? then (false, before) else (true, Allocate(before, q.size, q.alignment))
  {
    assert (reqs + [q])[..|reqs|] == reqs;
  }

  lemma {:induction false} PrefixOneMore(st: State, reqs: seq<Request>, k: nat, m: nat, before: State)
    requires Laid(st) && Positive(reqs) && k + m < |reqs|
    requires AllocateAll(st, reqs[k..][..m]) == (true, before)
    ensures var q := reqs[k + m];
            var place := FirstFit(before, 0, 0, q.size, q.alignment);
            AllocateAll(st, reqs[k..][..m + 1]) ==
            if place.NoSpace? then (false, before) else (true, Allocate(before, q.size, q.alignment))
  {
    AllocateOneMore(st, reqs[k..][..m], reqs[k + m], before);
    assert reqs[k..][..m + 1] == reqs[k..][..m] + [reqs[k + m]];
  }

  lemma {:induction false} FreshFits(length: nat, reqs: seq<Request>, k: nat)
    requires Descending(reqs) && k <= |reqs| && Demand(reqs[..k]) <= length
    ensures var (ok, st) := AllocateAll(State(length, [], 0), reqs[..k]);
            ok && Below(st, Demand(reqs[..k])) && st.length == length
    decreases k
  {
    if k > 0 {
      var before, last := reqs[..k - 1], reqs[k - 1];
      assert reqs[..k][..k - 1] == before;
      AlignIsLeastMultiple(last.size, last.alignment);
      FreshFits(length, reqs, k - 1);
      DemandIsMultiple(before, last.alignment);
      FitsAbove(AllocateAll(State(length, [], 0), before).1, Demand(before), last);
    }
  }

  lemma {:induction false} DescendingSuffix(reqs: seq<Request>, k: nat)
    requires Descending(reqs) && k <= |reqs|
    ensures Descending(reqs[k..])
  {
  }

  lemma {:induction false} DemandGrows(reqs: seq<Request>, k: nat)
    requires k <= |reqs| && Positive(reqs)
    ensures Demand(reqs[..k]) <= Demand(reqs)
    decreases |reqs|
  {
    if k < |reqs| {
      DemandGrows(reqs[..|reqs| - 1], k);
      assert reqs[..|reqs| - 1][..k] == reqs[..k];
    } else {
      assert reqs[..k] == reqs;
    }
  }

  lemma {:induction false} FreshPrefixFits(reqs: seq<Request>, k: nat, m: nat)
    requires Descending(reqs) && k + m <= |reqs|
    ensures AllocateAll(State(Align(Demand(reqs[k..]), PAGE), [], 0), reqs[k..][..m]).0
  {
    DescendingSuffix(reqs, k);
    DemandGrows(reqs[k..], m);
    AlignIsLeastMultiple(Demand(reqs[k..]), PAGE);
    FreshFits(Align(Demand(reqs[k..]), PAGE), reqs[k..], m);
  }

  /** With descending alignments the fresh mapping never runs out of space. */
  lemma {:induction false} FreshArenaNeverRunsOut(reqs: seq<Request>)
    requires Descending(reqs)
    ensures AllocateAll(State(Align(Demand(reqs), PAGE), [], 0), reqs).0
  {
    AlignIsLeastMultiple(Demand(reqs), PAGE);
    assert reqs[..|reqs|] == reqs;
    FreshFits(Align(Demand(reqs), PAGE), reqs, |reqs|);
  }

  /** Alternating byte and page alignments waste two pages, one more than rounding up grants. */
  function Wasteful(): seq<Request> {
    [Request(1, 1), Request(4096, 4096), Request(4097, 1), Request(4096, 4096)]
  }

  lemma {:induction false} WastefulDemand()
    ensures Align(Demand(Wasteful()), PAGE) == 16384
  {
    var r := Wasteful();
    assert r[..3] == [Request(1, 1), Request(4096, 4096), Request(4097, 1)];
    assert r[..3][..2] == [Request(1, 1), Request(4096, 4096)];
    assert r[..3][..2][..1] == [Request(1, 1)];
    assert Demand(r[..3][..2][..1]) == 1;
    assert Demand(r[..3][..2]) == 4097;
    assert Demand(r[..3]) == 8194;
  }

  const W0 := State(16384, [], 0)
  const W1 := State(16384, [Block(0, 0, 1)], 1)
  const W2 := State(16384, [Block(0, 0, 1), Block(1, 4096, 8192)], 2)
  const W3 := State(16384, [Block(0, 0, 1), Block(1, 4096, 8192), Block(2, 8192, 12289)], 3)

  lemma {:induction false} WastefulPlaces()
    ensures FirstFit(W0, 0, 0, 1, 1) == At(0, 0)
    ensures FirstFit(W1, 0, 0, 4096, 4096) == At(1, 4096)
    ensures FirstFit(W2, 0, 0, 4097, 1) == At(2, 8192)
    ensures FirstFit(W3, 0, 0, 4096, 4096) == NoSpace
  {
    assert FirstFit(W1, 1, 4096, 4096, 4096) == At(1, 4096);
    assert FirstFit(W2, 2, 8192, 4097, 1) == At(2, 8192);
    assert FirstFit(W2, 1, 1, 4097, 1) == At(2, 8192);
    assert FirstFit(W3, 2, 8192, 4096, 4096) == NoSpace;
    assert FirstFit(W3, 1, 4096, 4096, 4096) == NoSpace;
  }

  lemma {:induction false} WastefulStates()
    ensures Allocate(W0, 1, 1) == W1 && Allocate(W1, 4096, 4096) == W2 && Allocate(W2, 4097, 1) == W3
  {
    WastefulPlaces();
    hide FirstFit;
    assert Splice(W0, 0, 0, [Block(0, 0, 1)]) == W1;
    assert Splice(W1, 1, 1, [Block(1, 4096, 8192)]) == W2;
    assert Splice(W2, 2, 2, [Block(2, 8192, 12289)]) == W3;
  }

  lemma {:induction false} WastefulOne()
    ensures AllocateAll(W0, [Request(1, 1)]) == (true, W1)
  {
    WastefulPlaces();
    WastefulStates();
    AllocateOneMore(W0, [], Request(1, 1), W0);
    assert [] + [Request(1, 1)] == [Request(1, 1)];
  }

  lemma {:induction false} WastefulTwo()
    ensures AllocateAll(W0, [Request(1, 1)] + [Request(4096, 4096)]) == (true, W2)
  {
    WastefulPlaces();
    WastefulStates();
    WastefulOne();
    hide FirstFit, Allocate, AllocateAll;
    AllocateOneMore(W0, [Request(1, 1)], Request(4096, 4096), W1);
  }

  lemma {:induction false} WastefulThree()
    ensures AllocateAll(W0, [Request(1, 1)] + [Request(4096, 4096)] + [Request(4097, 1)]) == (true, W3)
  {
    WastefulPlaces();
    WastefulStates();
    WastefulTwo();
    hide FirstFit, Allocate, AllocateAll;
    AllocateOneMore(W0, [Request(1, 1)] + [Request(4096, 4096)], Request(4097, 1), W2);
  }

  /** Without that condition it can run out. */
  lemma {:induction false} FreshArenaCanRunOut()
    ensures !AllocateAll(State(Align(Demand(Wasteful()), PAGE), [], 0), Wasteful()).0
  {
    WastefulDemand();
    WastefulThree();
    WastefulPlaces();
    hide FirstFit, Demand, Laid, AllocateAll;
    var first := [Request(1, 1)] + [Request(4096, 4096)] + [Request(4097, 1)];
    assert Wasteful() == first + [Request(4096, 4096)];
    AllocateOneMore(W0, first, Request(4096, 4096), W3);
  }

  // ---------------------------------------------------------------- what a batch leaves

  datatype Grant = Grant(arena: nat, block: Block)
  datatype Result = Granted(grants: seq<Grant>) | EmptyList | AlignmentTooBig | FreshArenaFull

  ghost predicate Serves(arenas: seq<State>, g: Grant, r: Request)
    requires r.alignment > 0
  {
    && g.arena < |arenas| && g.block in arenas[g.arena].blocks
    && g.block.end == g.block.start + r.size && g.block.start % r.alignment == 0
  }

  /** One live allocation per request, in order, of the exact size, aligned, none handed out twice. */
  ghost predicate ServesAll(arenas: seq<State>, grants: seq<Grant>, reqs: seq<Request>)
    requires Positive(reqs)
  {
    && |grants| == |reqs|
    && (forall k :: 0 <= k < |reqs| ==> Serves(arenas, grants[k], reqs[k]))
    && (forall i, j :: 0 <= i < j < |grants| ==>
         grants[i].arena != grants[j].arena || grants[i].block.id != grants[j].block.id)
  }

  ghost predicate AllLaid(arenas: seq<State>) {
    forall i :: 0 <= i < |arenas| ==> Laid(arenas[i])
  }

  /** Everything allocated is still allocated, in the same place. */
  ghost predicate KeepsArena(st: State, was: State) {
    st.length == was.length && was.next <= st.next && forall b :: b in was.blocks ==> b in st.blocks
  }

  ghost predicate Keeps(arenas: seq<State>, before: seq<State>) {
    |before| <= |arenas| && forall i :: 0 <= i < |before| ==> KeepsArena(arenas[i], before[i])
  }

  /** The allocation was made after `before`. */
  ghost predicate IsNew(before: seq<State>, g: Grant) {
    g.arena < |before| ==> before[g.arena].next <= g.block.id
  }

  /** What is allocated is what was allocated before, and the grants, which are new. */
  ghost predicate Adds(arenas: seq<State>, before: seq<State>, grants: seq<Grant>) {
    && Keeps(arenas, before)
    && (forall g :: g in grants ==> IsNew(before, g))
    && (forall i: nat, b :: i < |arenas| && b in arenas[i].blocks ==>
         (i < |before| && b in before[i].blocks) || Grant(i, b) in grants)
  }

  /** Granted ranges never overlap: two grants from one arena are disjoint in it. */
  lemma {:induction false} GrantsAreDisjoint(arenas: seq<State>, grants: seq<Grant>, reqs: seq<Request>, i: nat, j: nat)
    requires AllLaid(arenas) && Positive(reqs)
    requires ServesAll(arenas, grants, reqs) && i < j < |grants| && grants[i].arena == grants[j].arena
    ensures grants[i].block.end <= grants[j].block.start || grants[j].block.end <= grants[i].block.start
  {
    assert Serves(arenas, grants[i], reqs[i]) && Serves(arenas, grants[j], reqs[j]);
    assert Laid(arenas[grants[i].arena]);
    hide Laid;
    TwoApart(arenas[grants[i].arena], grants[i].block, grants[j].block);
  }

  /** A granted range overlaps nothing that was allocated before. */
  lemma {:induction false} GrantsMissLive(arenas: seq<State>, before: seq<State>, grants: seq<Grant>,
      reqs: seq<Request>, k: nat, b: Block)
    requires AllLaid(arenas) && AllLaid(before) && Positive(reqs)
    requires ServesAll(arenas, grants, reqs) && Adds(arenas, before, grants) && k < |grants|
    requires grants[k].arena < |before| && b in before[grants[k].arena].blocks
    ensures grants[k].block.end <= b.start || b.end <= grants[k].block.start
  {
    var a := grants[k].arena;
    assert Serves(arenas, grants[k], reqs[k]) && IsNew(before, grants[k]);
    assert KeepsArena(arenas[a], before[a]);
    OneId(before[a], b);
    assert b.id < before[a].next;
    hide Laid;
    TwoApart(arenas[a], grants[k].block, b);
  }

  // ---------------------------------------------------------------- which arena serves which request

  /** None of the arenas in `[lo, hi)` has room. */
  ghost predicate PassedOver(before: seq<State>, r: Request, lo: nat, hi: nat)
    requires r.alignment > 0
  {
    forall x :: lo <= x < hi && x < |before| ==> NoRoom(before[x], r.size, r.alignment)
  }

  /** The first arena that is tried for request `i`. */
  function TriedFrom(grants: seq<Grant>, i: nat): nat
    requires i <= |grants|
  {
    if i == 0 then 0 else grants[i - 1].arena + 1
  }

  /** Request `i` is served at the lowest place of the first arena with room behind the one that served
      the request before, or by the fresh arena when there is none. */
  ghost predicate ScannedAt(before: seq<State>, grants: seq<Grant>, r: Request, i: nat)
    requires i < |grants| && r.alignment > 0
  {
    && grants[i].arena <= |before|
    && PassedOver(before, r, TriedFrom(grants, i), grants[i].arena)
    && (grants[i].arena < |before| ==>
         TriedFrom(grants, i) <= grants[i].arena
         && LowestRoom(before[grants[i].arena], grants[i].block.start, r.size, r.alignment))
  }

  ghost predicate Scanned(before: seq<State>, grants: seq<Grant>, reqs: seq<Request>)
    requires Positive(reqs) && |grants| <= |reqs|
  {
    forall i :: 0 <= i < |grants| ==> ScannedAt(before, grants, reqs[i], i)
  }

  lemma {:induction false} ScannedOneMore(before: seq<State>, grants: seq<Grant>, reqs: seq<Request>, g: Grant)
    requires Positive(reqs) && |grants| < |reqs| && Scanned(before, grants, reqs) && g.arena <= |before|
    requires var r, from := reqs[|grants|], TriedFrom(grants, |grants|);
             && PassedOver(before, r, from, g.arena)
             && (g.arena < |before| ==>
                   from <= g.arena && LowestRoom(before[g.arena], g.block.start, r.size, r.alignment))
    ensures Scanned(before, grants + [g], reqs)
  {
    hide PassedOver, LowestRoom;
    forall i | 0 <= i < |grants| + 1 ensures ScannedAt(before, grants + [g], reqs[i], i) {
      if i < |grants| { assert ScannedAt(before, grants, reqs[i], i); }
    }
  }

  /** What one attempt finds. */
  lemma {:induction false} TryFinds(st: State, r: Request)
    requires Laid(st) && r.alignment > 0
    ensures var place := FirstFit(st, 0, 0, r.size, r.alignment);
            if place.At? then LowestRoom(st, place.start, r.size, r.alignment) else NoRoom(st, r.size, r.alignment)
  {
    FirstFitIsLowest(st, r.size, r.alignment);
  }

  // ---------------------------------------------------------------- one more grant

  /** The grant made when request `r` fits arena `a`. */
  ghost predicate Places(st: State, r: Request, b: Block)
    requires r.alignment > 0
  {
    var place := FirstFit(st, 0, 0, r.size, r.alignment);
    place.At? && b == Block(st.next, place.start, place.start + r.size)
  }

  /** Serving one more request from an arena keeps every earlier grant served. */
  lemma {:induction false} ServesOneMore(arenas: seq<State>, grants: seq<Grant>, reqs: seq<Request>, k: nat, g: Grant)
    requires AllLaid(arenas) && k < |reqs| && Positive(reqs)
    requires ServesAll(arenas, grants, reqs[..k]) && g.arena < |arenas| && Places(arenas[g.arena], reqs[k], g.block)
    ensures var arenas' := arenas[g.arena := Allocate(arenas[g.arena], reqs[k].size, reqs[k].alignment)];
            AllLaid(arenas') && ServesAll(arenas', grants + [g], reqs[..k + 1])
  {
    var a, b := g.arena, g.block;
    AllocateAdds(arenas[a], reqs[k].size, reqs[k].alignment);
    AllocateKeepsLaid(arenas[a], reqs[k].size, reqs[k].alignment);
    hide FirstFit, Allocate;
    var arenas' := arenas[a := Allocate(arenas[a], reqs[k].size, reqs[k].alignment)];
    forall i | 0 <= i < k
      ensures Serves(arenas', grants[i], reqs[i]) && (grants[i].arena != a || grants[i].block.id != b.id)
    {
      assert reqs[..k][i] == reqs[i];
      assert Serves(arenas, grants[i], reqs[i]);
      if grants[i].arena == a { OneId(arenas[a], grants[i].block); }
    }
    assert Serves(arenas', g, reqs[k]);
  }

  lemma {:induction false} AddsOneMore(arenas: seq<State>, before: seq<State>, grants: seq<Grant>, r: Request, g: Grant)
    requires AllLaid(arenas) && r.alignment > 0 && Adds(arenas, before, grants)
    requires g.arena < |arenas| && Places(arenas[g.arena], r, g.block)
    ensures Adds(arenas[g.arena := Allocate(arenas[g.arena], r.size, r.alignment)], before, grants + [g])
  {
    var a := g.arena;
    var arenas' := arenas[a := Allocate(arenas[a], r.size, r.alignment)];
    AllocateAdds(arenas[a], r.size, r.alignment);
    hide FirstFit, Allocate, Laid;
    assert forall h :: h in grants + [g] <==> h in grants || h == g;
    forall i | 0 <= i < |before| ensures KeepsArena(arenas'[i], before[i]) {
      assert KeepsArena(arenas[i], before[i]);
    }
    forall i: nat, b | i < |arenas'| && b in arenas'[i].blocks
      ensures (i < |before| && b in before[i].blocks) || Grant(i, b) in grants + [g]
    {
      if i == a && b == g.block { assert Grant(i, b) == g; } else { assert b in arenas[i].blocks; }
    }
  }

  lemma {:induction false} AddsNothing(arenas: seq<State>)
    ensures Adds(arenas, arenas, [])
  {
  }

  lemma {:induction false} AfterMapping(arenas: seq<State>, before: seq<State>, length: nat, grants: seq<Grant>,
      reqs: seq<Request>)
    requires Positive(reqs) && AllLaid(arenas) && |arenas| == |before|
    requires ServesAll(arenas, grants, reqs) && Adds(arenas, before, grants)
    ensures var more := arenas + [State(length, [], 0)];
            AllLaid(more) && ServesAll(more, grants, reqs) && Adds(more, before, grants)
  {
    var more := arenas + [State(length, [], 0)];
    forall i | 0 <= i < |reqs| ensures Serves(more, grants[i], reqs[i]) {
      assert Serves(arenas, grants[i], reqs[i]);
    }
    forall i | 0 <= i < |before| ensures KeepsArena(more[i], before[i]) { assert KeepsArena(arenas[i], before[i]); }
  }

  /** The requests before `k` have been served, by these grants. */
  ghost predicate Serving(arenas: seq<State>, before: seq<State>, grants: seq<Grant>, reqs: seq<Request>, k: nat)
    requires Positive(reqs) && k <= |reqs|
  {
    && AllLaid(arenas) && |grants| == k && ServesAll(arenas, grants, reqs[..k]) && Adds(arenas, before, grants)
    && Scanned(before, grants, reqs) && (forall i :: 0 <= i < k ==> reqs[i].alignment <= PAGE)
  }

  lemma {:induction false} ServingOneMore(arenas: seq<State>, before: seq<State>, grants: seq<Grant>,
      reqs: seq<Request>, k: nat, g: Grant)
    requires Positive(reqs) && k < |reqs| && reqs[k].alignment <= PAGE && Serving(arenas, before, grants, reqs, k)
    requires g.arena < |arenas| && g.arena <= |before| && Places(arenas[g.arena], reqs[k], g.block)
    requires PassedOver(before, reqs[k], TriedFrom(grants, k), g.arena)
    requires g.arena < |before| ==> arenas[g.arena] == before[g.arena] && TriedFrom(grants, k) <= g.arena
    ensures Serving(arenas[g.arena := Allocate(arenas[g.arena], reqs[k].size, reqs[k].alignment)], before, grants + [g],
            reqs, k + 1)
  {
    assert Laid(arenas[g.arena]);
    TryFinds(arenas[g.arena], reqs[k]);
    hide Laid, FirstFit, Allocate, ServesAll, Adds, Scanned, PassedOver, LowestRoom, NoRoom, AllLaid;
    ServesOneMore(arenas, grants, reqs, k, g);
    AddsOneMore(arenas, before, grants, reqs[k], g);
    ScannedOneMore(before, grants, reqs, g);
  }

  // ---------------------------------------------------------------- the allocator

  class UnlimitedAllocator {
    var arenas: seq<State>

    constructor ()
      ensures AllLaid(arenas) && arenas == []
    {
      arenas := [];
    }

    /** One `arena.allocate` attempt for request `k`; on OutOfSpaceError nothing changes. */
    method Try(a: nat, reqs: seq<Request>, k: nat, grants: seq<Grant>, ghost before: seq<State>)
        returns (ok: bool, granted: seq<Grant>)
      requires Positive(reqs) && k < |reqs| && reqs[k].alignment <= PAGE && Serving(arenas, before, grants, reqs, k)
      requires a < |arenas| && a <= |before| && PassedOver(before, reqs[k], TriedFrom(grants, k), a)
      requires a < |before| ==> arenas[a] == before[a] && TriedFrom(grants, k) <= a
      modifies this
      ensures ok <==> FirstFit(old(arenas)[a], 0, 0, reqs[k].size, reqs[k].alignment).At?
      ensures ok ==>
                && arenas == old(arenas)[a := Allocate(old(arenas)[a], reqs[k].size, reqs[k].alignment)]
                && Serving(arenas, before, granted, reqs, k + 1) && granted[k].arena == a
      ensures !ok ==> arenas == old(arenas) && granted == grants && NoRoom(arenas[a], reqs[k].size, reqs[k].alignment)
    {
      var q := reqs[k];
      var place := FirstFit(arenas[a], 0, 0, q.size, q.alignment);
      ok, granted := place.At?, grants;
      TryFinds(arenas[a], q);
      if ok {
        var g := Grant(a, Block(arenas[a].next, place.start, place.start + q.size));
        ServingOneMore(arenas, before, grants, reqs, k, g);
        hide *;
        arenas, granted := arenas[a := Allocate(arenas[a], q.size, q.alignment)], grants + [g];
      }
    }

    /** `_bulk_malloc`; an empty list fails if there is an arena to try. Whatever happens, what was
        allocated before stays; on success, the grants are all that is added. */
    method BulkMalloc(reqs: seq<Request>) returns (r: Result)
      requires AllLaid(arenas) && Positive(reqs)
      modifies this
      ensures AllLaid(arenas) && |old(arenas)| <= |arenas| <= |old(arenas)| + 1 && Keeps(arenas, old(arenas))
      ensures r.Granted? ==> ServesAll(arenas, r.grants, reqs) && Adds(arenas, old(arenas), r.grants)
      ensures r.Granted? ==> Scanned(old(arenas), r.grants, reqs)
      ensures r.Granted? ==> forall i :: 0 <= i < |reqs| ==> reqs[i].alignment <= PAGE
      ensures r.Granted? ==>
                (|arenas| > |old(arenas)| <==> reqs != [] && r.grants[|reqs| - 1].arena == |old(arenas)|)
      ensures r.AlignmentTooBig? ==> exists q :: q in reqs && q.alignment > PAGE
      ensures r.EmptyList? <==> reqs == [] && old(arenas) != []
      ensures Descending(reqs) && (forall q :: q in reqs ==> q.alignment <= PAGE) ==> r.Granted? || r.EmptyList?
    {
      AddsNothing(arenas);
      hide Laid, FirstFit, Allocate, Descending, ServesAll, Scanned, PassedOver, NoRoom, Adds, Keeps, AllLaid;
      assert Scanned(arenas, [], reqs) && ServesAll(arenas, [], reqs[..0]) by { NoneServed(arenas, reqs); }
      KeepsItself(arenas);
      if reqs == [] {
        assert reqs[..0] == reqs;
        return if arenas == [] then Granted([]) else EmptyList;
      }
      var grants: seq<Grant>, k: nat := [], 0;
      var a := 0;
      assert PassedOver(arenas, reqs[0], 0, 0) by { PassesNone(arenas, reqs[0], 0, 0); }
      while a < |arenas|
        invariant a <= |arenas| == |old(arenas)| && k < |reqs| && Serving(arenas, old(arenas), grants, reqs, k)
        invariant forall x :: a <= x < |arenas| ==> arenas[x] == old(arenas)[x]
        invariant TriedFrom(grants, k) <= a && PassedOver(old(arenas), reqs[k], TriedFrom(grants, k), a)
      {
        AddsKeeps(arenas, old(arenas), grants);
        if reqs[k].alignment > PAGE { return AlignmentTooBig; }
        var ok;
        ghost var tried := grants;
        ok, grants := Try(a, reqs, k, grants, old(arenas));
        if ok {
          k := k + 1;
          if k == |reqs| {
            assert reqs[..k] == reqs;
            AddsKeeps(arenas, old(arenas), grants);
            return Granted(grants);
          }
          assert PassedOver(old(arenas), reqs[k], a + 1, a + 1) by { PassesNone(old(arenas), reqs[k], a + 1, a + 1); }
        } else {
          PassesOne(old(arenas), reqs[k], TriedFrom(tried, k), a);
        }
        a := a + 1;
      }
      r := FillFresh(reqs, k, grants, old(arenas));
      assert reqs[..|reqs|] == reqs;
    }

    /** Maps one fresh arena for requests `k` onwards and serves them all from it. */
    method FillFresh(reqs: seq<Request>, k: nat, served: seq<Grant>, ghost before: seq<State>) returns (r: Result)
      requires Positive(reqs) && k < |reqs| && Serving(arenas, before, served, reqs, k) && |arenas| == |before|
      requires PassedOver(before, reqs[k], TriedFrom(served, k), |before|)
      modifies this
      ensures AllLaid(arenas) && |arenas| == |before| + 1 && Keeps(arenas, before)
      ensures r.Granted? ==> Serving(arenas, before, r.grants, reqs, |reqs|) && r.grants[|reqs| - 1].arena == |before|
      ensures r.AlignmentTooBig? ==> exists q :: q in reqs && q.alignment > PAGE
      ensures !r.EmptyList?
      ensures Descending(reqs) && (forall q :: q in reqs ==> q.alignment <= PAGE) ==> r.Granted?
    {
      var mapped := State(Align(Demand(reqs[k..]), PAGE), [], 0);
      AfterMapping(arenas, before, mapped.length, served, reqs[..k]);
      arenas := arenas + [mapped];
      assert AllocateAll(mapped, reqs[k..][..0]) == (true, mapped);
      hide *;
      r := ServeRest(reqs, k, served, mapped, before);
    }

    method ServeRest(reqs: seq<Request>, k: nat, served: seq<Grant>, mapped: State, ghost before: seq<State>)
        returns (r: Result)
      requires Positive(reqs) && k < |reqs| && Serving(arenas, before, served, reqs, k)
      requires PassedOver(before, reqs[k], TriedFrom(served, k), |before|)
      requires |arenas| == |before| + 1 && arenas[|before|] == mapped
      requires mapped == State(Align(Demand(reqs[k..]), PAGE), [], 0)
      requires AllocateAll(mapped, reqs[k..][..0]) == (true, mapped)
      modifies this
      ensures AllLaid(arenas) && |arenas| == |before| + 1 && Keeps(arenas, before)
      ensures r.Granted? ==> Serving(arenas, before, r.grants, reqs, |reqs|) && r.grants[|reqs| - 1].arena == |before|
      ensures r.AlignmentTooBig? ==> exists q :: q in reqs && q.alignment > PAGE
      ensures !r.EmptyList?
      ensures Descending(reqs) && (forall q :: q in reqs ==> q.alignment <= PAGE) ==> r.Granted?
    {
      var a, m, grants := |arenas| - 1, 0, served;
      hide FirstFit, Allocate, ServesAll, AllocateAll, Laid, Demand, Align, Descending, Adds, Scanned, PassedOver,
          NoRoom, Keeps, AllLaid;
      while m < |reqs| - k
        invariant m <= |reqs| - k && |arenas| == a + 1 == |before| + 1 && Serving(arenas, before, grants, reqs, k + m)
        invariant m > 0 ==> grants[k + m - 1].arena == a
        invariant k + m < |reqs| ==> PassedOver(before, reqs[k + m], TriedFrom(grants, k + m), a)
        invariant AllocateAll(mapped, reqs[k..][..m]) == (true, arenas[a])
      {
        AddsKeeps(arenas, before, grants);
        if reqs[k + m].alignment > PAGE { return AlignmentTooBig; }
        PrefixOneMore(mapped, reqs, k, m, arenas[a]);
        var ok;
        ok, grants := Try(a, reqs, k + m, grants, before);
        if !ok {
          if Descending(reqs) { FreshPrefixFits(reqs, k, m + 1); }
          return FreshArenaFull;
        }
        m := m + 1;
        if k + m < |reqs| { PassesNone(before, reqs[k + m], a + 1, a); }
      }
      AddsKeeps(arenas, before, grants);
      r := Granted(grants);
    }

    /** `malloc`: a bulk request for one. The lowest place of the first arena with room, or a fresh arena
        exactly if there is none. */
    method Malloc(size: nat, alignment: nat) returns (r: Result)
      requires AllLaid(arenas) && alignment > 0
      modifies this
      ensures AllLaid(arenas) && Keeps(arenas, old(arenas))
      ensures r.Granted? <==> alignment <= PAGE
      ensures r.Granted? ==>
                && |r.grants| == 1 && Serves(arenas, r.grants[0], Request(size, alignment))
                && Adds(arenas, old(arenas), r.grants)
                && var a, q := r.grants[0].arena, Request(size, alignment);
                   && a <= |old(arenas)| && PassedOver(old(arenas), q, 0, a)
                   && (a < |old(arenas)| ==> LowestRoom(old(arenas)[a], r.grants[0].block.start, q.size, q.alignment))
                   && (|arenas| > |old(arenas)| <==> a == |old(arenas)|)
    {
      var reqs := [Request(size, alignment)];
      hide Laid, AllLaid, Keeps, Adds, PassedOver, LowestRoom;
      assert reqs[0] in reqs && Descending(reqs);
      r := BulkMalloc(reqs);
      if r.Granted? {
        assert ScannedAt(old(arenas), r.grants, reqs[0], 0) && Serves(arenas, r.grants[0], reqs[0]);
      }
    }
  }

  lemma {:induction false} NoneServed(arenas: seq<State>, reqs: seq<Request>)
    requires Positive(reqs)
    ensures Scanned(arenas, [], reqs) && ServesAll(arenas, [], reqs[..0])
  {
  }

  lemma {:induction false} KeepsItself(arenas: seq<State>)
    ensures Keeps(arenas, arenas)
  {
  }

  lemma {:induction false} AddsKeeps(arenas: seq<State>, before: seq<State>, grants: seq<Grant>)
    requires Adds(arenas, before, grants)
    ensures Keeps(arenas, before)
  {
  }

  lemma {:induction false} PassesNone(before: seq<State>, r: Request, lo: nat, hi: nat)
    requires r.alignment > 0 && hi <= lo
    ensures PassedOver(before, r, lo, hi)
  {
  }

  lemma {:induction false} PassesOne(before: seq<State>, r: Request, lo: nat, a: nat)
    requires r.alignment > 0 && a < |before| && PassedOver(before, r, lo, a) && NoRoom(before[a], r.size, r.alignment)
    ensures PassedOver(before, r, lo, a + 1)
  {
    hide NoRoom;
  }
}
