/** Fixed-size records as byte streams. */
module Streams {
  import opened Prelude
  newtype Byte = x: int | 0 <= x < 256
  type Record = seq<Byte>

  function Stream(xs: seq<Record>): seq<Byte> {
    if xs == [] then [] else Stream(xs[..|xs| - 1]) + xs[|xs| - 1]
  }

  predicate Sized(xs: seq<Record>, size: nat) {
    forall i :: 0 <= i < |xs| ==> |xs[i]| == size
  }

  lemma {:induction false} StreamOne(xs: seq<Record>, x: Record)
    ensures Stream(xs + [x]) == Stream(xs) + x
  {
    assert (xs + [x])[..|xs|] == xs;
  }

  lemma {:induction false} StreamJoin(xs: seq<Record>, ys: seq<Record>)
    ensures Stream(xs + ys) == Stream(xs) + Stream(ys)
    decreases |ys|
  {
    if ys == [] {
      assert xs + ys == xs;
    } else {
      var before, y := ys[..|ys| - 1], ys[|ys| - 1];
      assert xs + ys == (xs + before) + [y];
      StreamJoin(xs, before);
      StreamOne(xs + before, y);
    }
  }

  lemma {:induction false} StreamLength(xs: seq<Record>, size: nat)
    requires Sized(xs, size)
    ensures |Stream(xs)| == size * |xs|
    decreases |xs|
  {
    if xs != [] {
      StreamLength(xs[..|xs| - 1], size);
    }
  }

  /** A stream's first records can be read off any stream that it begins. */
  lemma {:induction false} StreamSplit(xs: seq<Record>, n: nat)
    requires n <= |xs|
    ensures Stream(xs) == Stream(xs[..n]) + Stream(xs[n..])
  {
    assert xs == xs[..n] + xs[n..];
    StreamJoin(xs[..n], xs[n..]);
  }

  lemma {:induction false} StreamFirst(xs: seq<Record>)
    requires xs != []
    ensures Stream(xs) == xs[0] + Stream(xs[1..])
  {
    StreamSplit(xs, 1);
    assert xs[..1] == [] + [xs[0]];
    StreamOne([], xs[0]);
  }

  lemma {:induction false} StreamAt(xs: seq<Record>, size: nat, i: nat)
    requires Sized(xs, size) && i < |xs|
    ensures size * i + size <= |Stream(xs)| && Stream(xs)[size * i..size * i + size] == xs[i]
  {
    StreamSplit(xs, i);
    StreamFirst(xs[i..]);
    StreamLength(xs[..i], size);
    assert Stream(xs) == Stream(xs[..i]) + xs[i] + Stream(xs[i..][1..]);
  }

  /** If a stream of records begins another, its records are the other's first. */
  lemma {:induction false} RecordsOfPrefix(xs: seq<Record>, ys: seq<Record>, size: nat)
    requires size > 0 && Sized(xs, size) && Sized(ys, size) && IsPrefix(Stream(xs), Stream(ys))
    ensures IsPrefix(xs, ys)
  {
    StreamLength(xs, size);
    StreamLength(ys, size);
    MulLess(size, |xs|, |ys|);
    forall i | 0 <= i < |xs| ensures xs[i] == ys[i] {
      StreamAt(xs, size, i);
      StreamAt(ys, size, i);
    }
  }

  lemma {:induction false} MulLess(size: nat, a: nat, b: nat)
    requires size > 0 && size * a <= size * b
    ensures a <= b
  {
  }
}
