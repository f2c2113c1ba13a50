/**
 The first-fit arena of rsyscall's memory allocator: a list of allocations inside one
 memory mapping, kept in address order, with allocate, free, split and merge.

 Allocations are compared by identity in the program (two zero-length allocations may agree
 in every field), so a block carries an identity number here.
 */
module Allocator {

  datatype Block = Block(id: nat, start: nat, end: nat)

  /** The mapping's length, the allocation list, and the next unused identity. */
  datatype State = State(length: nat, blocks: seq<Block>, next: nat)

  /** In bounds, in address order, pairwise disjoint, and identities used once. */
  predicate Laid(st: State) {
    && (forall i :: 0 <= i < |st.blocks| ==>
         st.blocks[i].start <= st.blocks[i].end <= st.length && st.blocks[i].id < st.next)
    && (forall i, j :: 0 <= i < j < |st.blocks| ==>
         st.blocks[i].end <= st.blocks[j].start && st.blocks[i].id != st.blocks[j].id)
  }

  // ---------------------------------------------------------------- align

  function Align(num: nat, alignment: nat): (r: nat)
    requires alignment > 0
  {
    var overhang := num % alignment;
    if overhang > 0 then num + (alignment - overhang) else num
  }

  lemma {:induction false} ModUnique(q: int, r: int, m: int, d: nat)
    requires d > 0 && 0 <= r < d && m == q * d + r
    ensures m % d == r
  {
    var q', r' := m / d, m % d;
    assert m == q' * d + r';
    if q' < q {
      MulGap(q', q, d);
    } else if q < q' {
      MulGap(q, q', d);
    }
  }

  lemma {:induction false} MulMonotone(a: int, b: int, d: nat)
    requires a <= b
    ensures a * d <= b * d
  {
    assert (b - a) * d >= 0;
    assert b * d - a * d == (b - a) * d;
  }

  lemma {:induction false} MulGap(a: int, b: int, d: nat)
    requires a < b
    ensures a * d + d <= b * d
  {
    MulMonotone(a + 1, b, d);
    assert (a + 1) * d == a * d + d;
  }

  /** The result is the least multiple of the alignment that is not below the argument. */
  lemma {:induction false} AlignIsLeastMultiple(num: nat, alignment: nat)
    requires alignment > 0
    ensures Align(num, alignment) % alignment == 0
    ensures num <= Align(num, alignment) < num + alignment
    ensures forall m: nat :: num <= m && m % alignment == 0 ==> Align(num, alignment) <= m
  {
    AlignIsMultiple(num, alignment);
    forall m: nat | num <= m && m % alignment == 0 ensures Align(num, alignment) <= m {
      AlignIsLeast(num, alignment, m);
    }
  }

  lemma {:induction false} AlignIsMultiple(num: nat, alignment: nat)
    requires alignment > 0
    ensures Align(num, alignment) % alignment == 0
  {
    var q, r := num / alignment, num % alignment;
    assert num == q * alignment + r;
    if r > 0 {
      assert Align(num, alignment) == (q + 1) * alignment;
      ModUnique(q + 1, 0, Align(num, alignment), alignment);
    }
  }

  lemma {:induction false} AlignIsLeast(num: nat, alignment: nat, m: nat)
    requires alignment > 0 && num <= m && m % alignment == 0
    ensures Align(num, alignment) <= m
  {
    var q, r, k := num / alignment, num % alignment, m / alignment;
    assert num == q * alignment + r && m == k * alignment;
    if k <= q {
      MulMonotone(k, q, alignment);
    } else {
      MulGap(q, k, alignment);
    }
  }

  // ---------------------------------------------------------------- allocate

  /** `[start, start + size)` overlaps no allocation and straddles no empty one. */
  predicate Clear(blocks: seq<Block>, start: nat, size: nat) {
    forall i :: 0 <= i < |blocks| ==> blocks[i].end <= start || start + size <= blocks[i].start
  }

  predicate Available(st: State, start: nat, size: nat, alignment: nat)
    requires alignment > 0
  {
    start % alignment == 0 && start + size <= st.length && Clear(st.blocks, start, size)
  }

  ghost predicate NoRoom(st: State, size: nat, alignment: nat)
    requires alignment > 0
  {
    forall s: nat :: !Available(st, s, size, alignment)
  }

  ghost predicate LowestRoom(st: State, start: nat, size: nat, alignment: nat)
    requires alignment > 0
  {
    && Available(st, start, size, alignment)
    && forall s: nat :: s < start ==> !Available(st, s, size, alignment)
  }

  datatype Place = NoSpace | At(index: nat, start: nat)

  /** The allocator's scan, from list index `i` with candidate start `newstart`. */
  function FirstFit(st: State, i: nat, newstart: nat, size: nat, alignment: nat): Place
    requires i <= |st.blocks| && alignment > 0
    decreases |st.blocks| - i
  {
    if i == |st.blocks| then
      if newstart + size <= st.length then At(i, newstart) else NoSpace
    else if newstart + size <= st.blocks[i].start then At(i, newstart)
    else FirstFit(st, i + 1, Align(st.blocks[i].end, alignment), size, alignment)
  }

  ghost predicate IsLowest(st: State, place: Place, size: nat, alignment: nat)
    requires alignment > 0
  {
    match place
    case NoSpace => forall s: nat :: !Available(st, s, size, alignment)
    case At(k, start) =>
      && k <= |st.blocks|
      && Available(st, start, size, alignment)
      && (forall s: nat :: s < start ==> !Available(st, s, size, alignment))
      && (forall j :: 0 <= j < k ==> st.blocks[j].end <= start)
      && (forall j :: k <= j < |st.blocks| ==> start + size <= st.blocks[j].start)
  }

  lemma {:induction false} ScanIsLowest(st: State, i: nat, newstart: nat, size: nat, alignment: nat)
    requires Laid(st) && i <= |st.blocks| && alignment > 0 && newstart % alignment == 0
    requires forall j :: 0 <= j < i ==> st.blocks[j].end <= newstart
    requires forall s: nat :: s < newstart ==> !Available(st, s, size, alignment)
    ensures IsLowest(st, FirstFit(st, i, newstart, size, alignment), size, alignment)
    decreases |st.blocks| - i
  {
    if i == |st.blocks| {
      forall s: nat | newstart + size > st.length
        ensures !Available(st, s, size, alignment)
      {
      }
    } else if newstart + size > st.blocks[i].start {
      var next := Align(st.blocks[i].end, alignment);
      AlignIsLeastMultiple(st.blocks[i].end, alignment);
      forall s: nat | s < next
        ensures !Available(st, s, size, alignment)
      {
        if s >= newstart && s % alignment == 0 {
          assert s < st.blocks[i].end;
        }
      }
      ScanIsLowest(st, i + 1, next, size, alignment);
    }
  }

  /** First fit finds the lowest aligned available range, and fails only when there is none. */
  lemma {:induction false} FirstFitIsLowest(st: State, size: nat, alignment: nat)
    requires Laid(st) && alignment > 0
    ensures IsLowest(st, FirstFit(st, 0, 0, size, alignment), size, alignment)
  {
    ScanIsLowest(st, 0, 0, size, alignment);
  }

  /** The list with positions `[i, j)` replaced by blocks that take the next unused identities. */
  function Splice(st: State, i: nat, j: nat, fill: seq<Block>): (r: State)
    requires i <= j <= |st.blocks|
    ensures |r.blocks| == i + |fill| + |st.blocks| - j
    ensures forall k {:trigger r.blocks[k]} :: 0 <= k < i ==> r.blocks[k] == st.blocks[k]
    ensures forall k {:trigger r.blocks[k]} :: i <= k < i + |fill| ==> r.blocks[k] == fill[k - i]
    ensures forall k {:trigger r.blocks[k]} :: i + |fill| <= k < |r.blocks| ==>
              r.blocks[k] == st.blocks[k - i - |fill| + j]
  {
    st.(blocks := st.blocks[..i] + fill + st.blocks[j..], next := st.next + |fill|)
  }

  /** The replaced positions lie in `[lo, hi]`, which the rest of the list leaves to them. */
  predicate Room(st: State, i: nat, j: nat, lo: nat, hi: nat) {
    && i <= j <= |st.blocks| && hi <= st.length
    && (forall k :: 0 <= k < i ==> st.blocks[k].end <= lo)
    && (forall k :: j <= k < |st.blocks| ==> hi <= st.blocks[k].start)
  }

  lemma {:induction false} SpliceKeepsLaid(st: State, i: nat, j: nat, fill: seq<Block>, lo: nat, hi: nat)
    requires Laid(st) && Room(st, i, j, lo, hi)
    requires Laid(State(hi, fill, st.next + |fill|))
    requires forall k :: 0 <= k < |fill| ==> st.next <= fill[k].id && lo <= fill[k].start
    ensures Laid(Splice(st, i, j, fill))
  {
    var r := Splice(st, i, j, fill);
    forall a, b | 0 <= a < b < |r.blocks|
      ensures r.blocks[a].end <= r.blocks[b].start && r.blocks[a].id != r.blocks[b].id
    {
      assert r.blocks[a] == if a < i then st.blocks[a] else if a < i + |fill| then fill[a - i]
             else st.blocks[a - i - |fill| + j];
      assert r.blocks[b] == if b < i then st.blocks[b] else if b < i + |fill| then fill[b - i]
             else st.blocks[b - i - |fill| + j];
    }
  }

  /** One new block fits where there is room for it. */
  lemma {:induction false} InsertKeepsLaid(st: State, i: nat, j: nat, lo: nat, hi: nat)
    requires Laid(st) && Room(st, i, j, lo, hi) && lo <= hi
    ensures Laid(Splice(st, i, j, [Block(st.next, lo, hi)]))
  {
    SpliceKeepsLaid(st, i, j, [Block(st.next, lo, hi)], lo, hi);
  }

  lemma {:induction false} FitHasRoom(st: State, size: nat, alignment: nat)
    requires Laid(st) && alignment > 0
    ensures var place := FirstFit(st, 0, 0, size, alignment);
            place.At? ==> Room(st, place.index, place.index, place.start, place.start + size)
  {
    FirstFitIsLowest(st, size, alignment);
  }

  /** `Arena.allocate`; the state is unchanged when OutOfSpaceError is raised. */
  function Allocate(st: State, size: nat, alignment: nat): State
    requires Laid(st) && alignment > 0
  {
    FitHasRoom(st, size, alignment);
    match FirstFit(st, 0, 0, size, alignment)
    case NoSpace => st
    case At(k, start) => Splice(st, k, k, [Block(st.next, start, start + size)])
  }

  lemma {:induction false} AllocateKeepsLaid(st: State, size: nat, alignment: nat)
    requires Laid(st) && alignment > 0
    ensures Laid(Allocate(st, size, alignment))
  {
    hide Laid, Splice, Room, FirstFit;
    FitHasRoom(st, size, alignment);
    var place := FirstFit(st, 0, 0, size, alignment);
    if place.At? {
      InsertKeepsLaid(st, place.index, place.index, place.start, place.start + size);
    }
  }

  /** An empty request is always placed at the very front of the arena. */
  lemma {:induction false} EmptyRequestGoesFirst(st: State, alignment: nat)
    requires Laid(st) && alignment > 0
    ensures FirstFit(st, 0, 0, 0, alignment) == At(0, 0)
  {
  }

  // ---------------------------------------------------------------- free, split, merge

  /** Position of an identity in the list, or the list's length when it is absent. */
  function Index(blocks: seq<Block>, id: nat): (i: nat)
    ensures i <= |blocks|
    ensures i < |blocks| ==> blocks[i].id == id
    ensures forall j :: 0 <= j < i ==> blocks[j].id != id
  {
    if blocks == [] then 0 else if blocks[0].id == id then 0 else 1 + Index(blocks[1..], id)
  }

  predicate Live(st: State, id: nat) {
    Index(st.blocks, id) < |st.blocks|
  }

  function Get(st: State, id: nat): Block
    requires Live(st, id)
  {
    st.blocks[Index(st.blocks, id)]
  }

  function Free(st: State, id: nat): State {
    var i := Index(st.blocks, id);
    if i < |st.blocks| then Splice(st, i, i + 1, []) else st
  }

  /** Replaces the block at a list position by two adjacent ones, `st.next` and `st.next + 1`. */
  function SplitAt(st: State, i: nat, size: nat): State
    requires i < |st.blocks| && st.blocks[i].start + size <= st.blocks[i].end
  {
    var b := st.blocks[i];
    Splice(st, i, i + 1, [Block(st.next, b.start, b.start + size), Block(st.next + 1, b.start + size, b.end)])
  }

  function Split(st: State, id: nat, size: nat): State
    requires Live(st, id) && Get(st, id).start + size <= Get(st, id).end
  {
    SplitAt(st, Index(st.blocks, id), size)
  }

  datatype MergeError = SelfFreed | OtherFreed | EndMismatch | NotAdjacent
  datatype Merged = Merged(st: State) | Refused(why: MergeError)

  function Merge(st: State, a: nat, b: nat): Merged {
    var i, j := Index(st.blocks, a), Index(st.blocks, b);
    if i == |st.blocks| then Refused(SelfFreed)
    else if j == |st.blocks| then Refused(OtherFreed)
    else if st.blocks[i].end != st.blocks[j].start then Refused(EndMismatch)
    else if i + 1 != j then Refused(NotAdjacent)
    else Merged(Splice(st, i, j + 1, [Block(st.next, st.blocks[i].start, st.blocks[j].end)]))
  }

  lemma {:induction false} IndexUnique(st: State, i: nat)
    requires Laid(st) && i < |st.blocks|
    ensures Index(st.blocks, st.blocks[i].id) == i
  {
  }

  lemma {:induction false} FreeKeepsLaid(st: State, id: nat)
    requires Laid(st)
    ensures Laid(Free(st, id)) && !Live(Free(st, id), id)
  {
    var i := Index(st.blocks, id);
    if i < |st.blocks| {
      SpliceKeepsLaid(st, i, i + 1, [], st.blocks[i].start, st.blocks[i].end);
    }
  }

  lemma {:induction false} PairIsLaid(next: nat, lo: nat, mid: nat, hi: nat)
    requires lo <= mid <= hi
    ensures Laid(State(hi, [Block(next, lo, mid), Block(next + 1, mid, hi)], next + 2))
  {
  }

  lemma {:induction false} SplitAtKeepsLaid(st: State, i: nat, size: nat)
    requires Laid(st) && i < |st.blocks| && st.blocks[i].start + size <= st.blocks[i].end
    ensures Laid(SplitAt(st, i, size))
  {
    var lo, mid, hi := st.blocks[i].start, st.blocks[i].start + size, st.blocks[i].end;
    var fill := [Block(st.next, lo, mid), Block(st.next + 1, mid, hi)];
    assert Room(st, i, i + 1, lo, hi);
    hide Laid, Room;
    PairIsLaid(st.next, lo, mid, hi);
    SpliceKeepsLaid(st, i, i + 1, fill, lo, hi);
  }

  lemma {:induction false} SplitKeepsLaid(st: State, id: nat, size: nat)
    requires Laid(st) && Live(st, id) && Get(st, id).start + size <= Get(st, id).end
    ensures Laid(Split(st, id, size))
  {
    SplitAtKeepsLaid(st, Index(st.blocks, id), size);
  }

  /** Allocations as the bare numbers that split computes with, whatever size it is given. */
  datatype Span = Span(start: int, end: int)

  function Spans(blocks: seq<Block>): seq<Span> {
    seq(|blocks|, i requires 0 <= i < |blocks| => Span(blocks[i].start, blocks[i].end))
  }

  predicate InOrder(length: nat, spans: seq<Span>) {
    && (forall i :: 0 <= i < |spans| ==> 0 <= spans[i].start <= spans[i].end <= length)
    && (forall i, j :: 0 <= i < j < |spans| ==> spans[i].end <= spans[j].start)
  }

  function RawSplit(blocks: seq<Block>, i: nat, size: int): seq<Span>
    requires i < |blocks|
  {
    var b := blocks[i];
    Spans(blocks[..i]) + [Span(b.start, b.start + size), Span(b.start + size, b.end)] + Spans(blocks[i + 1..])
  }

  /** Split checks nothing: it keeps the list in order exactly if the size is in range. */
  lemma {:induction false} SplitIsExact(st: State, i: nat, size: int)
    requires Laid(st) && i < |st.blocks|
    ensures InOrder(st.length, RawSplit(st.blocks, i, size)) <==> 0 <= size <= st.blocks[i].end - st.blocks[i].start
  {
    var r, b := RawSplit(st.blocks, i, size), st.blocks[i];
    assert r[i] == Span(b.start, b.start + size) && r[i + 1] == Span(b.start + size, b.end);
    forall k | 0 <= k < |r| && k != i && k != i + 1
      ensures var o := st.blocks[if k < i then k else k - 1]; r[k] == Span(o.start, o.end)
    {
    }
  }

  lemma {:induction false} MergeKeepsLaid(st: State, a: nat, b: nat)
    requires Laid(st) && Merge(st, a, b).Merged?
    ensures Laid(Merge(st, a, b).st)
  {
    var i, j := Index(st.blocks, a), Index(st.blocks, b);
    InsertKeepsLaid(st, i, j + 1, st.blocks[i].start, st.blocks[j].end);
  }

  // ---------------------------------------------------------------- what each edit leaves

  /** One live allocation right behind the other, in the list and in memory. */
  predicate Neighbours(st: State, a: nat, b: nat) {
    exists i :: 0 <= i < |st.blocks| - 1 && Touching(st, i, a, b)
  }

  predicate Touching(st: State, i: nat, a: nat, b: nat)
    requires i + 1 < |st.blocks|
  {
    st.blocks[i].id == a && st.blocks[i + 1].id == b && st.blocks[i].end == st.blocks[i + 1].start
  }

  /** Some allocation holds this byte of the mapping. */
  predicate Held(st: State, x: nat) {
    exists b :: b in st.blocks && b.start <= x < b.end
  }

  lemma {:induction false} SpliceHas(st: State, i: nat, j: nat, fill: seq<Block>, b: Block)
    requires Laid(st) && i <= j <= |st.blocks|
    requires forall k :: i <= k < j ==> st.blocks[k] != b
    ensures b in Splice(st, i, j, fill).blocks <==> b in st.blocks || b in fill
  {
    var r := Splice(st, i, j, fill).blocks;
    if k :| 0 <= k < |st.blocks| && st.blocks[k] == b { assert r[if k < i then k else k - j + i + |fill|] == b; }
    if k :| 0 <= k < |fill| && fill[k] == b { assert r[i + k] == b; }
  }

  lemma {:induction false} SpliceLacks(st: State, i: nat, j: nat, fill: seq<Block>, b: Block)
    requires Laid(st) && i <= j <= |st.blocks| && (exists k :: i <= k < j && st.blocks[k] == b) && b !in fill
    ensures b !in Splice(st, i, j, fill).blocks
  {
    var r := Splice(st, i, j, fill);
    forall k | 0 <= k < |r.blocks| ensures r.blocks[k] != b {
      if i <= k < i + |fill| { assert fill[k - i] in fill; }
    }
  }

  /** An allocation is added, and nothing else changes. */
  lemma {:induction false} AllocateAdds(st: State, size: nat, alignment: nat)
    requires Laid(st) && alignment > 0
    ensures var st', place := Allocate(st, size, alignment), FirstFit(st, 0, 0, size, alignment);
            && (place.NoSpace? ==> st' == st)
            && (place.At? ==>
                 && place.start % alignment == 0 && place.start + size <= st.length
                 && st'.length == st.length && st'.next == st.next + 1
                 && forall b :: b in st'.blocks <==>
                     b in st.blocks || b == Block(st.next, place.start, place.start + size))
  {
    FitHasRoom(st, size, alignment);
    FirstFitIsLowest(st, size, alignment);
    var place := FirstFit(st, 0, 0, size, alignment);
    if place.At? {
      var added := Block(st.next, place.start, place.start + size);
      hide FirstFit, IsLowest, Room;
      forall b ensures b in Splice(st, place.index, place.index, [added]).blocks <==> b in st.blocks || b == added {
        SpliceHas(st, place.index, place.index, [added], b);
      }
    }
  }

  /** Exactly the allocation is gone. */
  lemma {:induction false} FreeRemoves(st: State, id: nat)
    requires Laid(st)
    ensures Free(st, id).length == st.length && Free(st, id).next == st.next
    ensures forall b :: b in Free(st, id).blocks <==> b in st.blocks && b.id != id
  {
    var i := Index(st.blocks, id);
    if i < |st.blocks| {
      forall b ensures b in Free(st, id).blocks <==> b in st.blocks && b.id != id { OneReplaced(st, i, [], b); }
    }
  }

  /** Exactly the allocation is replaced by its two parts. */
  lemma {:induction false} SplitReplaces(st: State, id: nat, size: nat)
    requires Laid(st) && Live(st, id) && Get(st, id).start + size <= Get(st, id).end
    ensures var st', was := Split(st, id, size), Get(st, id);
            && st'.length == st.length && st'.next == st.next + 2
            && forall b :: b in st'.blocks <==>
                 || (b in st.blocks && b.id != id)
                 || b == Block(st.next, was.start, was.start + size)
                 || b == Block(st.next + 1, was.start + size, was.end)
  {
    var i, was := Index(st.blocks, id), Get(st, id);
    var f, g := Block(st.next, was.start, was.start + size), Block(st.next + 1, was.start + size, was.end);
    hide Splice, Index;
    forall b ensures b in Split(st, id, size).blocks <==> (b in st.blocks && b.id != id) || b == f || b == g {
      OneReplaced(st, i, [f, g], b);
    }
  }

  lemma {:induction false} OneReplaced(st: State, i: nat, fill: seq<Block>, b: Block)
    requires Laid(st) && i < |st.blocks| && forall k :: 0 <= k < |fill| ==> fill[k].id >= st.next
    ensures b in Splice(st, i, i + 1, fill).blocks <==> (b in st.blocks && b.id != st.blocks[i].id) || b in fill
  {
    if b == st.blocks[i] {
      SpliceLacks(st, i, i + 1, fill, b);
    } else {
      SpliceHas(st, i, i + 1, fill, b);
      hide Splice;
      if k :| 0 <= k < |st.blocks| && st.blocks[k] == b { assert k < i || i < k; }
    }
  }

  lemma {:induction false} TouchingAt(st: State, k: nat, a: nat, b: nat)
    requires Laid(st) && k + 1 < |st.blocks| && Touching(st, k, a, b)
    ensures Index(st.blocks, a) == k && Index(st.blocks, b) == k + 1
  {
    IndexUnique(st, k);
    IndexUnique(st, k + 1);
  }

  /** merge is accepted exactly for neighbours, in this order. */
  lemma {:induction false} MergeIsExact(st: State, a: nat, b: nat)
    requires Laid(st)
    ensures Merge(st, a, b).Merged? <==> Neighbours(st, a, b)
    ensures Neighbours(st, a, b) ==> Live(st, a) && Live(st, b) && Get(st, a).end == Get(st, b).start
  {
    hide Laid, Index, Splice;
    if k :| 0 <= k < |st.blocks| - 1 && Touching(st, k, a, b) { TouchingAt(st, k, a, b); }
    if Merge(st, a, b).Merged? { assert Touching(st, Index(st.blocks, a), a, b); }
  }

  /** Exactly the two neighbours are replaced by one allocation that starts and ends as they do. */
  lemma {:induction false} MergeReplaces(st: State, a: nat, b: nat)
    requires Laid(st) && Neighbours(st, a, b)
    ensures Merge(st, a, b).Merged? && Live(st, a) && Live(st, b)
    ensures var st' := Merge(st, a, b).st;
            && st'.length == st.length && st'.next == st.next + 1
            && forall x :: x in st'.blocks <==>
                 (x in st.blocks && x.id != a && x.id != b) || x == Block(st.next, Get(st, a).start, Get(st, b).end)
  {
    MergeIsExact(st, a, b);
    hide Neighbours, Splice, Index;
    var i, added := Index(st.blocks, a), Block(st.next, Get(st, a).start, Get(st, b).end);
    forall x ensures x in Merge(st, a, b).st.blocks <==> (x in st.blocks && x.id != a && x.id != b) || x == added {
      PairReplaced(st, i, added, x);
    }
  }

  lemma {:induction false} PairReplaced(st: State, i: nat, added: Block, b: Block)
    requires Laid(st) && i + 1 < |st.blocks| && added.id == st.next
    ensures b in Splice(st, i, i + 2, [added]).blocks <==>
            (b in st.blocks && b.id != st.blocks[i].id && b.id != st.blocks[i + 1].id) || b == added
  {
    if b == st.blocks[i] || b == st.blocks[i + 1] {
      assert st.blocks[i] == b || st.blocks[i + 1] == b;
      SpliceLacks(st, i, i + 2, [added], b);
    } else {
      SpliceHas(st, i, i + 2, [added], b);
      hide Splice;
      if k :| 0 <= k < |st.blocks| && st.blocks[k] == b { assert k < i || i + 1 < k; }
    }
  }

  // ---------------------------------------------------------------- runs

  datatype Op =
    | OpAllocate(size: nat, alignment: nat)
    | OpFree(id: nat)
    | OpSplit(id: nat, size: nat)
    | OpMerge(a: nat, b: nat)

  /** What the callers owe: a positive alignment, and a split inside a live allocation. */
  predicate Allowed(st: State, op: Op) {
    match op
    case OpAllocate(_, alignment) => alignment > 0
    case OpSplit(id, size) => Live(st, id) && Get(st, id).start + size <= Get(st, id).end
    case _ => true
  }

  function Apply(st: State, op: Op): State
    requires Laid(st) && Allowed(st, op)
  {
    match op
    case OpAllocate(size, alignment) => Allocate(st, size, alignment)
    case OpFree(id) => Free(st, id)
    case OpSplit(id, size) => Split(st, id, size)
    case OpMerge(a, b) => var m := Merge(st, a, b); if m.Merged? then m.st else st
  }

  lemma {:induction false} ApplyKeepsLaid(st: State, op: Op)
    requires Laid(st) && Allowed(st, op)
    ensures Laid(Apply(st, op))
  {
    match op
    case OpAllocate(size, alignment) => AllocateKeepsLaid(st, size, alignment);
    case OpFree(id) => FreeKeepsLaid(st, id);
    case OpSplit(id, size) => SplitKeepsLaid(st, id, size);
    case OpMerge(a, b) => if Merge(st, a, b).Merged? { MergeKeepsLaid(st, a, b); }
  }

  // ---------------------------------------------------------------- bytes

  ghost predicate HeldBesides(st: State, gone: set<nat>, x: nat) {
    exists b :: b in st.blocks && b.id !in gone && b.start <= x < b.end
  }

  lemma {:induction false} BytesBesides(st: State, id: nat, x: nat)
    requires Laid(st) && Live(st, id)
    ensures Held(st, x) <==> HeldBesides(st, {id}, x) || Get(st, id).start <= x < Get(st, id).end
    ensures HeldBesides(st, {id}, x) ==> !(Get(st, id).start <= x < Get(st, id).end)
  {
    var was := Get(st, id);
    assert was in st.blocks && was.id == id;
    hide Laid, Index;
    if b :| b in st.blocks && b.id !in {id} && b.start <= x < b.end { TwoApart(st, b, was); }
    if b :| b in st.blocks && b.start <= x < b.end { if b.id == id { OneId(st, b); } }
  }

  lemma {:induction false} TwoApart(st: State, b: Block, c: Block)
    requires Laid(st) && b in st.blocks && c in st.blocks && b.id != c.id
    ensures b.end <= c.start || c.end <= b.start
  {
    var i :| 0 <= i < |st.blocks| && st.blocks[i] == b;
    var j :| 0 <= j < |st.blocks| && st.blocks[j] == c;
    assert i < j || j < i;
  }

  lemma {:induction false} FreeBytes(st: State, id: nat, x: nat)
    requires Laid(st)
    ensures Held(Free(st, id), x) <==> Held(st, x) && !(Live(st, id) && Get(st, id).start <= x < Get(st, id).end)
  {
    FreeRemoves(st, id);
    if Live(st, id) {
      BytesBesides(st, id, x);
      hide Laid, Free, Index;
      assert Held(Free(st, id), x) <==> HeldBesides(st, {id}, x);
    }
  }

  lemma {:induction false} SplitBytes(st: State, id: nat, size: nat, x: nat)
    requires Laid(st) && Live(st, id) && Get(st, id).start + size <= Get(st, id).end
    ensures Held(Split(st, id, size), x) <==> Held(st, x)
  {
    SplitReplaces(st, id, size);
    BytesBesides(st, id, x);
    hide Laid, Split, Index;
    var st', was := Split(st, id, size), Get(st, id);
    var f, g := Block(st.next, was.start, was.start + size), Block(st.next + 1, was.start + size, was.end);
    assert f in st'.blocks && g in st'.blocks;
    assert HeldBesides(st, {id}, x) ==> Held(st', x);
  }

  lemma {:induction false} MergeBytes(st: State, a: nat, b: nat, x: nat)
    requires Laid(st) && Merge(st, a, b).Merged?
    ensures Held(Merge(st, a, b).st, x) <==> Held(st, x)
  {
    MergeIsExact(st, a, b);
    MergeReplaces(st, a, b);
    BytesBesides(st, a, x);
    BytesBesides(st, b, x);
    hide Laid, Merge, Index, Neighbours;
    var st', f, g := Merge(st, a, b).st, Get(st, a), Get(st, b);
    var m := Block(st.next, f.start, g.end);
    assert m in st'.blocks;
    assert f.start <= f.end && g.start <= g.end by { Ordered(st, a); Ordered(st, b); }
    if c :| c in st.blocks && c.start <= x < c.end {
      if c.id == a || c.id == b { OneId(st, c); } else { assert c in st'.blocks; }
    }
  }

  lemma {:induction false} OneId(st: State, b: Block)
    requires Laid(st) && b in st.blocks
    ensures Live(st, b.id) && Get(st, b.id) == b
  {
    var k :| 0 <= k < |st.blocks| && st.blocks[k] == b;
    IndexUnique(st, k);
  }

  lemma {:induction false} Ordered(st: State, id: nat)
    requires Laid(st) && Live(st, id)
    ensures Get(st, id).start <= Get(st, id).end <= st.length
  {
  }

  lemma {:induction false} AllocateBytes(st: State, size: nat, alignment: nat, x: nat)
    requires Laid(st) && alignment > 0
    ensures var place := FirstFit(st, 0, 0, size, alignment);
            var taken := place.At? && place.start <= x < place.start + size;
            && (Held(Allocate(st, size, alignment), x) <==> Held(st, x) || taken)
            && !(taken && Held(st, x))
  {
    AllocateAdds(st, size, alignment);
    FirstFitIsLowest(st, size, alignment);
    hide Laid, FirstFit, Allocate;
    var st', place := Allocate(st, size, alignment), FirstFit(st, 0, 0, size, alignment);
    if place.At? {
      assert Block(st.next, place.start, place.start + size) in st'.blocks;
      assert Clear(st.blocks, place.start, size);
    }
  }

  /** What an operation changes about who has memory: allocate takes bytes that nobody had, free gives
      back those of its allocation, and split and merge neither take nor give back any. */
  lemma {:induction false} BytesAreConserved(st: State, op: Op, x: nat)
    requires Laid(st) && Allowed(st, op)
    ensures Held(Apply(st, op), x) <==>
            match op
            case OpAllocate(size, alignment) =>
              var place := FirstFit(st, 0, 0, size, alignment);
              Held(st, x) || (place.At? && place.start <= x < place.start + size)
            case OpFree(id) => Held(st, x) && !(Live(st, id) && Get(st, id).start <= x < Get(st, id).end)
            case OpSplit(_, _) => Held(st, x)
            case OpMerge(_, _) => Held(st, x)
    ensures op.OpAllocate? ==>
              var place := FirstFit(st, 0, 0, op.size, op.alignment);
              place.At? && place.start <= x < place.start + op.size ==> !Held(st, x)
  {
    hide Split, Merge, Free, Allocate, Index, Laid, Held, FirstFit;
    match op
    case OpAllocate(size, alignment) => AllocateBytes(st, size, alignment, x);
    case OpFree(id) => FreeBytes(st, id, x);
    case OpSplit(id, size) => SplitBytes(st, id, size, x);
    case OpMerge(a, b) => if Merge(st, a, b).Merged? { MergeBytes(st, a, b, x); }
  }

  ghost predicate AllAllowed(st: State, ops: seq<Op>)
    requires Laid(st)
    decreases ops
  {
    ops != [] ==> Allowed(st, ops[0]) && (ApplyKeepsLaid(st, ops[0]); AllAllowed(Apply(st, ops[0]), ops[1..]))
  }

  ghost function Run(st: State, ops: seq<Op>): (r: State)
    requires Laid(st) && AllAllowed(st, ops)
    ensures Laid(r)
    decreases ops
  {
    if ops == [] then st else ApplyKeepsLaid(st, ops[0]); Run(Apply(st, ops[0]), ops[1..])
  }

  // ---------------------------------------------------------------- split halves stay mergeable

  predicate Touches(op: Op, id: nat) {
    match op
    case OpAllocate(_, _) => false
    case OpFree(i) => i == id
    case OpSplit(i, _) => i == id
    case OpMerge(a, b) => a == id || b == id
  }

  /** `f` = [lo, mid) and `g` = [mid, hi) sit next to each other at list position `i`. */
  predicate Halves(st: State, i: nat, f: Block, g: Block) {
    i + 1 < |st.blocks| && st.blocks[i] == f && st.blocks[i + 1] == g && f.end == g.start
  }

  /** No allocation is ever placed between two adjacent halves. */
  lemma {:induction false} NeverBetween(st: State, i: nat, f: Block, g: Block, size: nat, alignment: nat)
    requires Laid(st) && Halves(st, i, f, g) && alignment > 0
    ensures var place := FirstFit(st, 0, 0, size, alignment); place.At? ==> place.index != i + 1
  {
    FitHasRoom(st, size, alignment);
    if size == 0 { EmptyRequestGoesFirst(st, alignment); }
  }

  /** Replacing other positions moves adjacent halves by at most the change in length. */
  lemma {:induction false} HalvesSplice(st: State, i: nat, f: Block, g: Block, a: nat, b: nat, fill: seq<Block>)
      returns (k: nat)
    requires Halves(st, i, f, g) && a <= b <= |st.blocks|
    requires b <= i || i + 2 <= a
    ensures Halves(Splice(st, a, b, fill), k, f, g)
  {
    k := if b <= i then i - (b - a) + |fill| else i;
  }

  lemma {:induction false} HalvesAllocate(st: State, i: nat, f: Block, g: Block, size: nat, alignment: nat)
      returns (k: nat)
    requires Laid(st) && alignment > 0 && Halves(st, i, f, g)
    ensures Halves(Allocate(st, size, alignment), k, f, g)
  {
    k := i;
    FitHasRoom(st, size, alignment);
    NeverBetween(st, i, f, g, size, alignment);
    var place := FirstFit(st, 0, 0, size, alignment);
    if place.At? {
      k := HalvesSplice(st, i, f, g, place.index, place.index, [Block(st.next, place.start, place.start + size)]);
    }
  }

  /** An operation on other identities acts on list positions other than the halves'. */
  lemma {:induction false} OtherPosition(st: State, i: nat, f: Block, g: Block, id: nat)
    requires Laid(st) && Halves(st, i, f, g) && id != f.id && id != g.id
    ensures var j := Index(st.blocks, id); j < |st.blocks| ==> j + 1 <= i || i + 2 <= j
  {
  }

  lemma {:induction false} HalvesStep(st: State, i: nat, f: Block, g: Block, op: Op) returns (k: nat)
    requires Laid(st) && Allowed(st, op) && Halves(st, i, f, g)
    requires !Touches(op, f.id) && !Touches(op, g.id)
    ensures Halves(Apply(st, op), k, f, g)
  {
    hide Laid, Splice, Allocate, Index, Halves;
    match op
    case OpAllocate(size, alignment) =>
      k := HalvesAllocate(st, i, f, g, size, alignment);
    case OpFree(id) =>
      OtherPosition(st, i, f, g, id);
      var j := Index(st.blocks, id);
      if j < |st.blocks| { k := HalvesSplice(st, i, f, g, j, j + 1, []); } else { k := i; }
    case OpSplit(id, size) =>
      OtherPosition(st, i, f, g, id);
      var j, b := Index(st.blocks, id), Get(st, id);
      k := HalvesSplice(st, i, f, g, j, j + 1,
          [Block(st.next, b.start, b.start + size), Block(st.next + 1, b.start + size, b.end)]);
    case OpMerge(a, b) =>
      OtherPosition(st, i, f, g, a);
      OtherPosition(st, i, f, g, b);
      var j, m := Index(st.blocks, a), Index(st.blocks, b);
      if Merge(st, a, b).Merged? {
        k := HalvesSplice(st, i, f, g, j, m + 1, [Block(st.next, st.blocks[j].start, st.blocks[m].end)]);
      } else {
        k := i;
      }
  }

  lemma {:induction false} HalvesRun(st: State, i: nat, f: Block, g: Block, ops: seq<Op>) returns (k: nat)
    requires Laid(st) && AllAllowed(st, ops) && Halves(st, i, f, g)
    requires forall op :: op in ops ==> !Touches(op, f.id) && !Touches(op, g.id)
    ensures Halves(Run(st, ops), k, f, g)
    decreases ops
  {
    if ops == [] {
      k := i;
    } else {
      assert ops[0] in ops;
      var i' := HalvesStep(st, i, f, g, ops[0]);
      ApplyKeepsLaid(st, ops[0]);
      k := HalvesRun(Apply(st, ops[0]), i', f, g, ops[1..]);
    }
  }

  lemma {:induction false} MergeHalves(st: State, i: nat, f: Block, g: Block)
    requires Laid(st) && Halves(st, i, f, g)
    ensures var m := Merge(st, f.id, g.id);
            m.Merged? && Live(m.st, st.next) && Get(m.st, st.next) == Block(st.next, f.start, g.end)
  {
    IndexUnique(st, i);
    IndexUnique(st, i + 1);
    var m := Merge(st, f.id, g.id).st;
    MergeKeepsLaid(st, f.id, g.id);
    assert m.blocks[i] == Block(st.next, f.start, g.end);
    IndexUnique(m, i);
  }

  /** After a split and any operations on other allocations, merge rebuilds the original range. */
  lemma {:induction false} SplitThenMerge(st: State, id: nat, size: nat, ops: seq<Op>)
    requires Laid(st) && Live(st, id) && Get(st, id).start + size <= Get(st, id).end
    requires Laid(Split(st, id, size)) && AllAllowed(Split(st, id, size), ops)
    requires forall op :: op in ops ==> !Touches(op, st.next) && !Touches(op, st.next + 1)
    ensures var end := Run(Split(st, id, size), ops);
            var m := Merge(end, st.next, st.next + 1);
            m.Merged? && Live(m.st, end.next)
            && Get(m.st, end.next) == Block(end.next, Get(st, id).start, Get(st, id).end)
  {
    var b := Get(st, id);
    var f, g := Block(st.next, b.start, b.start + size), Block(st.next + 1, b.start + size, b.end);
    var k := HalvesRun(Split(st, id, size), Index(st.blocks, id), f, g, ops);
    MergeHalves(Run(Split(st, id, size), ops), k, f, g);
  }
}
