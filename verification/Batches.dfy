/**
 `perform_batch`: a callable is run once against null pointers to learn what it allocates, and
 once more on allocations made in bulk, with its writes put off to the end.

 A callable that only uses the RAM it is given is a function from the addresses of its
 allocations so far to what it does next.
 */
module Batches {
  import Streams

  type Byte = Streams.Byte
  type Addr = int
  type Memory = map<Addr, Byte>

  datatype Op<R> = Malloc(bytes: nat) | Ptr(data: seq<Byte>) | Return(value: R)
  type Program<!R> = seq<Addr> -> Op<R>

  function Size<R>(op: Op<R>): nat
    requires !op.Return?
  {
    match op
    case Malloc(bytes) => bytes
    case Ptr(data) => |data|
  }

  /** The program makes exactly these allocations at these addresses, and returns. */
  ghost predicate Finishes<R>(p: Program<R>, addrs: seq<Addr>) {
    (forall i :: 0 <= i < |addrs| ==> !p(addrs[..i]).Return?) && p(addrs).Return?
  }

  function Nulls(n: nat): seq<Addr> { seq(n, _ => 0) }

  // ---------------------------------------------------------------- memory

  datatype Write = Write(addr: Addr, data: seq<Byte>)

  predicate Covers(w: Write, x: Addr) { w.addr <= x < w.addr + |w.data| }

  function Store(mem: Memory, w: Write): (m: Memory)
    ensures forall x :: x in m <==> x in mem || Covers(w, x)
    ensures forall x :: x in m ==> m[x] == if Covers(w, x) then w.data[x - w.addr] else mem[x]
  {
    mem + map x | w.addr <= x < w.addr + |w.data| && Covers(w, x) :: w.data[x - w.addr]
  }

  function StoreAll(mem: Memory, ws: seq<Write>): Memory {
    if ws == [] then mem else Store(StoreAll(mem, ws[..|ws| - 1]), ws[|ws| - 1])
  }

  /** Calling malloc and ptr one after another, when the allocations are at these addresses. */
  function Direct<R>(p: Program<R>, addrs: seq<Addr>, mem: Memory): Memory
    decreases |addrs|
  {
    if addrs == [] then mem
    else
      var before := addrs[..|addrs| - 1];
      var m := Direct(p, before, mem);
      match p(before)
      case Ptr(data) => Store(m, Write(addrs[|addrs| - 1], data))
      case _ => m
  }

  /** No byte is written twice. */
  ghost predicate Apart(ws: seq<Write>) {
    forall v, w, x :: v in ws && w in ws && Covers(v, x) && Covers(w, x) ==> v == w
  }

  lemma {:induction false} Untouched(mem: Memory, ws: seq<Write>, x: Addr)
    requires forall w :: w in ws ==> !Covers(w, x)
    ensures x in StoreAll(mem, ws) <==> x in mem
    ensures x in mem ==> StoreAll(mem, ws)[x] == mem[x]
    decreases |ws|
  {
    if ws != [] {
      Untouched(mem, ws[..|ws| - 1], x);
      assert !Covers(ws[|ws| - 1], x);
    }
  }

  /** A byte that some write covers ends as that write left it. */
  lemma {:induction false} Touched(mem: Memory, ws: seq<Write>, w: Write, x: Addr)
    requires Apart(ws) && w in ws && Covers(w, x)
    ensures x in StoreAll(mem, ws) && StoreAll(mem, ws)[x] == w.data[x - w.addr]
    decreases |ws|
  {
    var before, last := ws[..|ws| - 1], ws[|ws| - 1];
    if Covers(last, x) {
      assert last == w;
    } else {
      assert ws == before + [last];
      Touched(mem, before, w, x);
    }
  }

  /** Deferred writes may run in any order. */
  lemma {:induction false} AnyOrder(mem: Memory, ws: seq<Write>, shuffled: seq<Write>)
    requires Apart(ws) && multiset(shuffled) == multiset(ws)
    ensures StoreAll(mem, shuffled) == StoreAll(mem, ws)
  {
    SameElements(ws, shuffled);
    var a, b := StoreAll(mem, ws), StoreAll(mem, shuffled);
    forall x ensures x in a <==> x in b
      ensures x in a ==> a[x] == b[x]
    {
      if w :| w in ws && Covers(w, x) {
        Touched(mem, ws, w, x);
        Touched(mem, shuffled, w, x);
      } else {
        Untouched(mem, ws, x);
        Untouched(mem, shuffled, x);
      }
    }
  }

  lemma {:induction false} SameElements(ws: seq<Write>, shuffled: seq<Write>)
    requires multiset(shuffled) == multiset(ws)
    ensures forall w :: w in shuffled <==> w in ws
  {
    forall w ensures w in shuffled <==> w in ws {
      assert w in shuffled <==> w in multiset(shuffled);
    }
  }

  // ---------------------------------------------------------------- the second run

  /** An allocation for the second run: its address and size. */
  datatype Extent = Extent(addr: Addr, size: nat)

  datatype Outcome<R> =
    | Finished(value: R, used: nat, writes: seq<Write>)
    | NonDeterministic      // an allocation of another size than in the first run
    | NoneLeft              // more allocations than in the first run

  function Addrs(grants: seq<Extent>): seq<Addr> { seq(|grants|, i requires 0 <= i < |grants| => grants[i].addr) }

  /** The second run from its `i`-th allocation on. */
  function Second<R>(p: Program<R>, grants: seq<Extent>, i: nat, writes: seq<Write>): Outcome<R>
    requires i <= |grants|
    decreases |grants| - i
  {
    match p(Addrs(grants)[..i])
    case Return(v) => Finished(v, i, writes)
    case Malloc(size) =>
      if i == |grants| then NoneLeft
      else if grants[i].size != size then NonDeterministic
      else Second(p, grants, i + 1, writes)
    case Ptr(data) =>
      if i == |grants| then NoneLeft
      else if grants[i].size != |data| then NonDeterministic
      else Second(p, grants, i + 1, writes + [Write(grants[i].addr, data)])
  }

  /** The writes of a run whose allocations are at these addresses. */
  function Writes<R>(p: Program<R>, addrs: seq<Addr>): seq<Write>
    decreases |addrs|
  {
    if addrs == [] then []
    else
      var before := addrs[..|addrs| - 1];
      match p(before)
      case Ptr(data) => Writes(p, before) + [Write(addrs[|addrs| - 1], data)]
      case _ => Writes(p, before)
  }

  lemma {:induction false} WritesAreDirect<R>(p: Program<R>, addrs: seq<Addr>, mem: Memory)
    ensures StoreAll(mem, Writes(p, addrs)) == Direct(p, addrs, mem)
    decreases |addrs|
  {
    if addrs != [] {
      var before := addrs[..|addrs| - 1];
      WritesAreDirect(p, before, mem);
      var ws := Writes(p, addrs);
      if p(before).Ptr? {
        assert ws[..|ws| - 1] == Writes(p, before);
      }
    }
  }

  /** The run asks for the sizes that were granted, as far as it goes. */
  ghost predicate Agrees<R>(p: Program<R>, grants: seq<Extent>, n: nat)
    requires n <= |grants|
  {
    forall i :: 0 <= i < n ==> !p(Addrs(grants)[..i]).Return? && Size(p(Addrs(grants)[..i])) == grants[i].size
  }

  /** The program returns after `n` allocations, each of the size it was granted. */
  ghost predicate RunsTo<R>(p: Program<R>, grants: seq<Extent>, n: nat) {
    n <= |grants| && Agrees(p, grants, n) && p(Addrs(grants)[..n]).Return?
  }

  lemma {:induction false} SecondOneMore<R>(p: Program<R>, grants: seq<Extent>, i: nat)
    requires i < |grants| && Agrees(p, grants, i + 1)
    ensures Second(p, grants, i, Writes(p, Addrs(grants)[..i])) == Second(p, grants, i + 1,
            Writes(p, Addrs(grants)[..i + 1]))
  {
    var addrs := Addrs(grants);
    assert addrs[..i + 1][..i] == addrs[..i];
  }

  /** As far as the sizes agree, the second run goes on. */
  lemma {:induction false} SecondGoesOn<R>(p: Program<R>, grants: seq<Extent>, i: nat)
    requires i <= |grants| && Agrees(p, grants, i)
    ensures Second(p, grants, 0, []) == Second(p, grants, i, Writes(p, Addrs(grants)[..i]))
  {
    if i == 0 {
      assert Writes(p, Addrs(grants)[..0]) == [];
    } else {
      SecondGoesOn(p, grants, i - 1);
      SecondOneMore(p, grants, i - 1);
    }
  }

  /** Where the program returns, the second run has collected its writes. */
  lemma {:induction false} SecondFinishes<R>(p: Program<R>, grants: seq<Extent>, n: nat)
    requires RunsTo(p, grants, n)
    ensures Second(p, grants, 0, []) == Finished(p(Addrs(grants)[..n]).value, n, Writes(p, Addrs(grants)[..n]))
  {
    SecondGoesOn(p, grants, n);
  }

  /** The second run raises exactly when the program does not return with the granted sizes. */
  lemma {:induction false} SecondRaises<R>(p: Program<R>, grants: seq<Extent>, i: nat)
    requires i <= |grants| && Agrees(p, grants, i) && forall n :: i <= n ==> !RunsTo(p, grants, n)
    ensures !Second(p, grants, 0, []).Finished?
    decreases |grants| - i
  {
    SecondGoesOn(p, grants, i);
    if i < |grants| && Agrees(p, grants, i + 1) {
      SecondRaises(p, grants, i + 1);
    } else {
      assert !RunsTo(p, grants, i);
    }
  }

  lemma {:induction false} FinishesIffAgrees<R>(p: Program<R>, grants: seq<Extent>)
    ensures Second(p, grants, 0, []).Finished? <==> exists n :: RunsTo(p, grants, n)
  {
    if n :| RunsTo(p, grants, n) {
      SecondFinishes(p, grants, n);
    } else {
      SecondRaises(p, grants, 0);
    }
  }

  // ---------------------------------------------------------------- programs that do not look at addresses

  predicate SameShape<R>(a: Op<R>, b: Op<R>) {
    if a.Return? || b.Return? then a.Return? && b.Return? else Size(a) == Size(b)
  }

  /** What is allocated does not depend on the numeric value of any pointer; what is written may. */
  ghost predicate Oblivious<R>(p: Program<R>) {
    forall a, b :: |a| == |b| ==> SameShape(p(a), p(b))
  }

  /** The grants are for what the first run asked for. */
  ghost predicate AsAsked<R>(p: Program<R>, grants: seq<Extent>) {
    && Finishes(p, Nulls(|grants|))
    && forall i :: 0 <= i < |grants| ==> grants[i].size == Size(p(Nulls(|grants|)[..i]))
  }

  lemma {:induction false} ObliviousNeverRaises<R>(p: Program<R>, grants: seq<Extent>)
    requires Oblivious(p) && AsAsked(p, grants)
    ensures RunsTo(p, grants, |grants|)
  {
    var n, addrs := |grants|, Addrs(grants);
    forall i | 0 <= i < n ensures !p(addrs[..i]).Return? && Size(p(addrs[..i])) == grants[i].size {
      assert SameShape(p(addrs[..i]), p(Nulls(n)[..i]));
    }
    assert addrs[..n] == addrs;
    assert SameShape(p(addrs), p(Nulls(n)));
  }

  // ---------------------------------------------------------------- meaning

  ghost predicate GrantsApart(grants: seq<Extent>) {
    forall i, j :: 0 <= i < j < |grants| ==>
      grants[i].addr + grants[i].size <= grants[j].addr || grants[j].addr + grants[j].size <= grants[i].addr
  }

  ghost predicate Wrote<R>(p: Program<R>, addrs: seq<Addr>, i: nat, w: Write) {
    i < |addrs| && p(addrs[..i]) == Ptr(w.data) && addrs[i] == w.addr
  }

  lemma {:induction false} WriteHasOrigin<R>(p: Program<R>, addrs: seq<Addr>, w: Write) returns (i: nat)
    requires w in Writes(p, addrs)
    ensures Wrote(p, addrs, i, w)
    decreases |addrs|
  {
    var before := addrs[..|addrs| - 1];
    if w in Writes(p, before) {
      i := WriteHasOrigin(p, before, w);
      assert before[..i] == addrs[..i];
    } else {
      i := |addrs| - 1;
    }
  }

  lemma {:induction false} OriginIsWritten<R>(p: Program<R>, addrs: seq<Addr>, w: Write, i: nat)
    requires Wrote(p, addrs, i, w)
    ensures w in Writes(p, addrs)
    decreases |addrs|
  {
    var before := addrs[..|addrs| - 1];
    if i < |before| {
      assert before[..i] == addrs[..i];
      OriginIsWritten(p, before, w, i);
    }
  }

  lemma {:induction false} WritesAreApart<R>(p: Program<R>, grants: seq<Extent>, n: nat)
    requires n <= |grants| && Agrees(p, grants, n) && GrantsApart(grants)
    ensures Apart(Writes(p, Addrs(grants)[..n]))
  {
    var addrs := Addrs(grants)[..n];
    var ws := Writes(p, addrs);
    forall v, w, x | v in ws && w in ws && Covers(v, x) && Covers(w, x) ensures v == w {
      var i := WriteHasOrigin(p, addrs, v);
      var j := WriteHasOrigin(p, addrs, w);
      assert addrs[..i] == Addrs(grants)[..i] && addrs[..j] == Addrs(grants)[..j];
    }
  }

  /** Whatever the order of the deferred writes, memory ends as calling malloc and ptr directly,
      one after another, with allocations at the same addresses, would leave it. */
  lemma {:induction false} BatchMeansDirect<R>(p: Program<R>, grants: seq<Extent>, mem: Memory, order: seq<Write>)
    requires Second(p, grants, 0, []).Finished? && GrantsApart(grants)
    requires multiset(order) == multiset(Second(p, grants, 0, []).writes)
    ensures var o := Second(p, grants, 0, []);
            && RunsTo(p, grants, o.used) && o.value == p(Addrs(grants)[..o.used]).value
            && StoreAll(mem, order) == Direct(p, Addrs(grants)[..o.used], mem)
  {
    FinishesIffAgrees(p, grants);
    var n: nat :| RunsTo(p, grants, n);
    SecondFinishes(p, grants, n);
    WritesAreApart(p, grants, n);
    hide Second;
    AnyOrder(mem, Writes(p, Addrs(grants)[..n]), order);
    WritesAreDirect(p, Addrs(grants)[..n], mem);
  }

  lemma {:induction false} HoldsItsData<R>(p: Program<R>, addrs: seq<Addr>, mem: Memory, w: Write, i: nat, x: Addr)
    requires Apart(Writes(p, addrs)) && Wrote(p, addrs, i, w) && Covers(w, x)
    ensures x in Direct(p, addrs, mem) && Direct(p, addrs, mem)[x] == w.data[x - w.addr]
  {
    OriginIsWritten(p, addrs, w, i);
    WritesAreDirect(p, addrs, mem);
    Touched(mem, Writes(p, addrs), w, x);
  }

  /** Every pointer that ptr returned points to the data it was given. */
  lemma {:induction false} PointersHoldTheirData<R>(p: Program<R>, grants: seq<Extent>, n: nat, mem: Memory, i: nat,
      w: Write, x: Addr)
    requires RunsTo(p, grants, n) && GrantsApart(grants)
    requires i < n && p(Addrs(grants)[..i]) == Ptr(w.data) && w.addr == grants[i].addr && Covers(w, x)
    ensures var m := Direct(p, Addrs(grants)[..n], mem); x in m && m[x] == w.data[x - w.addr]
  {
    WritesAreApart(p, grants, n);
    var addrs := Addrs(grants)[..n];
    assert Wrote(p, addrs, i, w) by {
      assert addrs[..i] == Addrs(grants)[..i];
    }
    hide *;
    HoldsItsData(p, addrs, mem, w, i, x);
  }

  predicate Inside(e: Extent, x: Addr) { e.addr <= x < e.addr + e.size }

  predicate Disjoint(e: Extent, f: Extent) { e.addr + e.size <= f.addr || f.addr + f.size <= e.addr }

  /** The bytes of an extent are as they were. */
  ghost predicate SameBytes(m: Memory, was: Memory, e: Extent) {
    forall x :: Inside(e, x) ==> (x in m <==> x in was) && (x in m ==> m[x] == was[x])
  }

  /** A batch writes nowhere but into its own allocations. */
  lemma {:induction false} WritesNowhereElse<R>(p: Program<R>, grants: seq<Extent>, n: nat, mem: Memory, e: Extent)
    requires RunsTo(p, grants, n) && forall i :: 0 <= i < |grants| ==> Disjoint(grants[i], e)
    ensures SameBytes(Direct(p, Addrs(grants)[..n], mem), mem, e)
  {
    var addrs := Addrs(grants)[..n];
    WritesAreDirect(p, addrs, mem);
    forall x | Inside(e, x)
      ensures (x in Direct(p, addrs, mem) <==> x in mem) && (x in mem ==> Direct(p, addrs, mem)[x] == mem[x])
    {
      forall w | w in Writes(p, addrs) ensures !Covers(w, x) {
        var i := WriteHasOrigin(p, addrs, w);
        assert addrs[..i] == Addrs(grants)[..i];
        assert Disjoint(grants[i], e);
      }
      Untouched(mem, Writes(p, addrs), x);
    }
  }
}
