/**
 `AsyncReadBuffer`, which parses a stream that arrives in chunks, and the C writer of the
 length-prefixed arrays it parses.
 */
module ReadBuffer {
  import opened Prelude
  import opened Streams

  // ---------------------------------------------------------------- native 64-bit sizes

  const SIZE := 8

  function Pow256(k: nat): nat {
    if k == 0 then 1 else 256 * Pow256(k - 1)
  }

  function EncodeSize(n: nat, k: nat): (bs: seq<Byte>)
    ensures |bs| == k
  {
    if k == 0 then [] else [(n % 256) as Byte] + EncodeSize(n / 256, k - 1)
  }

  function DecodeSize(bs: seq<Byte>): nat {
    if bs == [] then 0 else bs[0] as nat + 256 * DecodeSize(bs[1..])
  }

  lemma {:induction false} SizeRoundTrip(n: nat, k: nat)
    requires n < Pow256(k)
    ensures |EncodeSize(n, k)| == k && DecodeSize(EncodeSize(n, k)) == n
  {
    if k > 0 {
      SizeRoundTrip(n / 256, k - 1);
      assert EncodeSize(n, k)[1..] == EncodeSize(n / 256, k - 1);
    }
  }

  // ---------------------------------------------------------------- what a read means

  datatype ReadOp = Length(n: nat, remove: bool) | Until(delim: seq<Byte>) | Text | Array(count: nat)
  datatype Value = Single(bytes: seq<Byte>) | Many(texts: seq<seq<Byte>>)

  /** The bytes `d` occur at position `i`. */
  predicate At(t: seq<Byte>, d: seq<Byte>, i: nat) {
    i + |d| <= |t| && t[i..i + |d|] == d
  }

  /** The first occurrence. */
  function Find(t: seq<Byte>, d: seq<Byte>): (r: Option<nat>)
    ensures match r
            case None => forall i: nat :: !At(t, d, i)
            case Some(i) => At(t, d, i) && forall j: nat :: j < i ==> !At(t, d, j)
  {
    if At(t, d, 0) then Some(0)
    else if t == [] then assert forall i: nat :: At(t, d, i) ==> i == 0; None
    else
      assert forall i: nat :: i > 0 ==> (At(t, d, i) <==> At(t[1..], d, i - 1)) by {
        forall i: nat | i > 0 ensures At(t, d, i) <==> At(t[1..], d, i - 1) { Shifted(t, d, i); }
      }
      match Find(t[1..], d)
      case None =>
        assert forall i: nat :: !At(t, d, i) by {
          forall i: nat ensures !At(t, d, i) { if i > 0 { Shifted(t, d, i); } }
        }
        None
      case Some(i) =>
        assert At(t, d, i + 1) && forall j: nat :: j < i + 1 ==> !At(t, d, j) by {
          Shifted(t, d, i + 1);
          forall j: nat | j < i + 1 ensures !At(t, d, j) { if j > 0 { Shifted(t, d, j); } }
        }
        Some(i + 1)
  }

  lemma {:induction false} Shifted(t: seq<Byte>, d: seq<Byte>, i: nat)
    requires t != [] && i > 0
    ensures At(t, d, i) <==> At(t[1..], d, i - 1)
  {
    if i + |d| <= |t| { assert t[i..i + |d|] == t[1..][i - 1..i - 1 + |d|]; }
  }

  /** What is taken off the front of a whole stream; None when the stream ends too early. */
  function TakeText(t: seq<Byte>): Option<(seq<Byte>, seq<Byte>)> {
    if |t| < SIZE then None
    else
      var n := DecodeSize(t[..SIZE]);
      if |t| - SIZE < n then None else Some((t[SIZE..SIZE + n], t[SIZE + n..]))
  }

  function TakeArray(t: seq<Byte>, count: nat): Option<(seq<seq<Byte>>, seq<Byte>)> {
    if count == 0 then Some(([], t))
    else
      match TakeArray(t, count - 1)
      case None => None
      case Some((texts, rest)) =>
        match TakeText(rest)
        case None => None
        case Some((text, rest')) => Some((texts + [text], rest'))
  }

  function Take(t: seq<Byte>, op: ReadOp): Option<(Value, seq<Byte>)> {
    match op
    case Length(n, remove) => if |t| < n then None else Some((Single(t[..n]), if remove then t[n..] else t))
    case Until(d) =>
      // only the first byte of the delimiter is skipped
      (match Find(t, d) case None => None case Some(i) => if i < |t| then Some((Single(t[..i]), t[i + 1..])) else None)
    case Text => (match TakeText(t) case None => None case Some((text, rest)) => Some((Single(text), rest)))
    case Array(count) => (match TakeArray(t, count) case None => None case Some((texts, rest)) =>
        Some((Many(texts), rest)))
  }

  /** A sequence of reads on a whole stream. */
  function TakeAll(t: seq<Byte>, ops: seq<ReadOp>): Option<(seq<Value>, seq<Byte>)> {
    if ops == [] then Some(([], t))
    else
      match TakeAll(t, ops[..|ops| - 1])
      case None => None
      case Some((values, rest)) =>
        match Take(rest, ops[|ops| - 1])
        case None => None
        case Some((v, rest')) => Some((values + [v], rest'))
  }

  // ---------------------------------------------------------------- the buffer

  class AsyncReadBuffer {
    var buf: seq<Byte>
    var chunks: seq<seq<Byte>>      // what the coming reads return, before EOF

    ghost predicate Valid()
      reads this
    {
      forall i :: 0 <= i < |chunks| ==> chunks[i] != []
    }

    /** Everything that has not been handed out. */
    ghost function Whole(): seq<Byte>
      reads this
    {
      buf + Stream(chunks)
    }

    constructor (chunks: seq<seq<Byte>>)
      requires forall i :: 0 <= i < |chunks| ==> chunks[i] != []
      ensures Valid() && Whole() == Stream(chunks)
    {
      this.buf, this.chunks := [], chunks;
    }

    /** `_read`, appended to the buffer; false on EOF. */
    method Fill() returns (ok: bool)
      requires Valid()
      modifies this
      ensures Valid() && Whole() == old(Whole())
      ensures ok <==> old(chunks) != []
      ensures ok ==> |buf| > |old(buf)| && |chunks| < |old(chunks)|
      ensures !ok ==> buf == old(buf) && chunks == []
    {
      ok := chunks != [];
      if ok {
        StreamFirst(chunks);
        assert buf + Stream(chunks) == (buf + chunks[0]) + Stream(chunks[1..]);
        buf, chunks := buf + chunks[0], chunks[1..];
      }
    }

    method ReadLength(n: nat, remove: bool) returns (r: Option<seq<Byte>>)
      requires Valid()
      modifies this
      ensures Valid()
      ensures r.Some? <==> n <= |old(Whole())|
      ensures r.Some? ==> r.value == old(Whole())[..n] && Whole() == if remove then old(Whole())[n..] else old(Whole())
      ensures r.None? ==> Whole() == old(Whole())
    {
      while |buf| < n
        invariant Valid() && Whole() == old(Whole())
        decreases |chunks|
      {
        var ok := Fill();
        if !ok {
          assert Whole() == buf + [] == buf;
          return None;
        }
      }
      r := Some(buf[..n]);
      assert Whole()[..n] == buf[..n] && Whole()[n..] == buf[n..] + Stream(chunks);
      if remove { buf := buf[n..]; }
    }

    /** Raises EOFError, and does not return None, when the delimiter never comes. */
    method ReadUntilDelimiter(d: seq<Byte>) returns (r: Option<seq<Byte>>)
      requires Valid() && d != []
      modifies this
      ensures Valid()
      ensures match Find(old(Whole()), d)
              case None => r.None? && Whole() == old(Whole())
              case Some(i) => i < |old(Whole())| && r == Some(old(Whole())[..i]) && Whole() == old(Whole())[i + 1..]
    {
      while true
        invariant Valid() && Whole() == old(Whole())
        decreases |chunks|
      {
        var found := Find(buf, d);
        if found.Some? {
          var i := found.value;
          FindInPrefix(buf, Stream(chunks), d, i);
          r := Some(buf[..i]);
          assert Whole()[..i] == buf[..i] && Whole()[i + 1..] == buf[i + 1..] + Stream(chunks);
          buf := buf[i + 1..];
          return;
        }
        var ok := Fill();
        if !ok {
          assert Whole() == buf + [] == buf;
          return None;
        }
      }
    }

    method ReadText() returns (r: Option<seq<Byte>>)
      requires Valid()
      modifies this
      ensures Valid()
      ensures match TakeText(old(Whole()))
              case None => r.None?
              case Some((text, rest)) => r == Some(text) && Whole() == rest
    {
      ghost var t := Whole();
      var size := ReadLength(SIZE, true);
      if size.None? { return None; }
      var n := DecodeSize(size.value);
      r := ReadLength(n, true);
      if r.Some? {
        assert t[SIZE..][..n] == t[SIZE..SIZE + n] && t[SIZE..][n..] == t[SIZE + n..];
      }
    }

    method ReadArray(count: nat) returns (r: Option<seq<seq<Byte>>>)
      requires Valid()
      modifies this
      ensures Valid()
      ensures match TakeArray(old(Whole()), count)
              case None => r.None?
              case Some((texts, rest)) => r == Some(texts) && Whole() == rest
    {
      ghost var t := Whole();
      var texts: seq<seq<Byte>> := [];
      for i := 0 to count
        invariant Valid() && TakeArray(t, i) == Some((texts, Whole()))
      {
        var text := ReadText();
        if text.None? {
          ArrayStops(t, i + 1, count);
          return None;
        }
        texts := texts + [text.value];
      }
      r := Some(texts);
    }

    method Read(op: ReadOp) returns (r: Option<Value>)
      requires Valid() && (op.Until? ==> op.delim != [])
      modifies this
      ensures Valid()
      ensures match Take(old(Whole()), op)
              case None => r.None?
              case Some((v, rest)) => r == Some(v) && Whole() == rest
    {
      var b: Option<seq<Byte>>;
      match op {
        case Length(n, remove) => b := ReadLength(n, remove);
        case Until(d) => b := ReadUntilDelimiter(d);
        case Text => b := ReadText();
        case Array(count) =>
          var a := ReadArray(count);
          return if a.None? then None else Some(Many(a.value));
      }
      r := if b.None? then None else Some(Single(b.value));
    }

    /** Any sequence of reads gives what it would give on the whole stream, however that was cut
        into chunks. */
    method ReadAll(ops: seq<ReadOp>) returns (r: Option<seq<Value>>)
      requires Valid() && forall i :: 0 <= i < |ops| && ops[i].Until? ==> ops[i].delim != []
      modifies this
      ensures Valid()
      ensures match TakeAll(old(Whole()), ops)
              case None => r.None?
              case Some((values, rest)) => r == Some(values) && Whole() == rest
    {
      ghost var t := Whole();
      var values: seq<Value> := [];
      for i := 0 to |ops|
        invariant Valid() && TakeAll(t, ops[..i]) == Some((values, Whole()))
      {
        assert ops[..i + 1][..i] == ops[..i];
        var v := Read(ops[i]);
        if v.None? {
          AllStops(t, ops, i + 1);
          return None;
        }
        values := values + [v.value];
      }
      assert ops[..|ops|] == ops;
      r := Some(values);
    }
  }

  /** What is left of the stream before each read and after the last. */
  ghost predicate InTurn(t: seq<Byte>, ops: seq<ReadOp>, values: seq<Value>, rest: seq<Byte>, lefts: seq<seq<Byte>>) {
    && |values| == |ops| && |lefts| == |ops| + 1 && lefts[0] == t && lefts[|ops|] == rest
    && forall i :: 0 <= i < |ops| ==> Take(lefts[i], ops[i]) == Some((values[i], lefts[i + 1]))
  }

  /** The values are those of the reads one after another, each on what the one before has left. */
  lemma {:induction false} ValuesAreInTurn(t: seq<Byte>, ops: seq<ReadOp>, values: seq<Value>, rest: seq<Byte>)
    ensures TakeAll(t, ops) == Some((values, rest)) <==> exists lefts :: InTurn(t, ops, values, rest, lefts)
  {
    if TakeAll(t, ops) == Some((values, rest)) { var lefts := Lefts(t, ops); }
    forall lefts | InTurn(t, ops, values, rest, lefts) ensures TakeAll(t, ops) == Some((values, rest)) {
      InTurnIsAll(t, ops, values, rest, lefts);
    }
  }

  lemma {:induction false} Lefts(t: seq<Byte>, ops: seq<ReadOp>) returns (lefts: seq<seq<Byte>>)
    requires TakeAll(t, ops).Some?
    ensures InTurn(t, ops, TakeAll(t, ops).value.0, TakeAll(t, ops).value.1, lefts)
    decreases |ops|
  {
    if ops == [] {
      lefts := [t];
    } else {
      hide Take;
      var before := Lefts(t, ops[..|ops| - 1]);
      lefts := before + [TakeAll(t, ops).value.1];
      forall i | 0 <= i < |ops| - 1
        ensures Take(lefts[i], ops[i]) == Some((TakeAll(t, ops).value.0[i], lefts[i + 1]))
      {
        assert ops[..|ops| - 1][i] == ops[i];
      }
    }
  }

  lemma {:induction false} InTurnIsAll(t: seq<Byte>, ops: seq<ReadOp>, values: seq<Value>, rest: seq<Byte>,
      lefts: seq<seq<Byte>>)
    requires InTurn(t, ops, values, rest, lefts)
    ensures TakeAll(t, ops) == Some((values, rest))
    decreases |ops|
  {
    if ops != [] {
      hide Take;
      var n := |ops| - 1;
      assert InTurn(t, ops[..n], values[..n], lefts[n], lefts[..n + 1]);
      InTurnIsAll(t, ops[..n], values[..n], lefts[n], lefts[..n + 1]);
      assert values[..n] + [values[n]] == values;
    }
  }

  lemma {:induction false} ArrayStops(t: seq<Byte>, i: nat, count: nat)
    requires i <= count && TakeArray(t, i).None?
    ensures TakeArray(t, count).None?
    decreases count
  {
    if i < count { ArrayStops(t, i, count - 1); }
  }

  lemma {:induction false} AllStops(t: seq<Byte>, ops: seq<ReadOp>, i: nat)
    requires i <= |ops| && TakeAll(t, ops[..i]).None?
    ensures TakeAll(t, ops).None?
    decreases |ops|
  {
    if i == |ops| {
      assert ops[..i] == ops;
    } else {
      assert ops[..|ops| - 1][..i] == ops[..i];
      AllStops(t, ops[..|ops| - 1], i);
    }
  }

  // ---------------------------------------------------------------- the writer

  function Encoded(text: seq<Byte>): Record {
    EncodeSize(|text|, SIZE) + text
  }

  function EncodedArray(texts: seq<seq<Byte>>): seq<Byte> {
    if texts == [] then [] else EncodedArray(texts[..|texts| - 1]) + Encoded(texts[|texts| - 1])
  }

  predicate Representable(texts: seq<seq<Byte>>) {
    forall i :: 0 <= i < |texts| ==> |texts[i]| < Pow256(SIZE)
  }

  lemma {:induction false} TextRoundTrip(text: seq<Byte>, rest: seq<Byte>)
    requires |text| < Pow256(SIZE)
    ensures TakeText(Encoded(text) + rest) == Some((text, rest))
  {
    var t, n := Encoded(text) + rest, |text|;
    SizeRoundTrip(n, SIZE);
    assert t[..SIZE] == EncodeSize(n, SIZE);
    assert t[SIZE..SIZE + n] == text && t[SIZE + n..] == rest;
  }

  /** Reading back what the writer wrote gives the same strings, and leaves what follows. */
  lemma {:induction false} ArrayRoundTrip(texts: seq<seq<Byte>>, rest: seq<Byte>)
    requires Representable(texts)
    ensures TakeArray(EncodedArray(texts) + rest, |texts|) == Some((texts, rest))
    decreases |texts|
  {
    if texts == [] {
      assert EncodedArray(texts) + rest == rest;
    } else {
      var before, last := texts[..|texts| - 1], texts[|texts| - 1];
      assert EncodedArray(texts) + rest == EncodedArray(before) + (Encoded(last) + rest);
      ArrayRoundTrip(before, Encoded(last) + rest);
      TextRoundTrip(last, rest);
      assert before + [last] == texts;
    }
  }

  const EINTR := 4

  /** A descriptor to write to. A write takes any number of bytes, is interrupted, or fails for good;
      it is interrupted `interrupts` times at most, and takes nothing `patience` times at most. */
  class Sink {
    var data: seq<Byte>
    var patience: nat
    var interrupts: nat
    var broken: bool

    constructor (patience: nat, interrupts: nat)
      ensures data == [] && !broken
    {
      data, this.patience, this.interrupts, broken := [], patience, interrupts, false;
    }

    method Write(bytes: seq<Byte>) returns (ret: int)
      modifies this
      ensures ret < 0 ==> data == old(data)
      ensures ret >= 0 ==> ret <= |bytes| && data == old(data) + bytes[..ret]
      ensures patience <= old(patience) && (ret == 0 ==> patience < old(patience))
      ensures if ret == -EINTR then interrupts < old(interrupts) else interrupts == old(interrupts)
      ensures broken <==> old(broken) || (ret < 0 && ret != -EINTR)
      ensures old(broken) ==> ret < 0 && ret != -EINTR
    {
      var n: int := *;
      if broken {
        ret := -1;
      } else if 0 < n <= |bytes| {
        data, ret := data + bytes[..n], n;
      } else if patience > 0 && n == 0 {
        patience, ret := patience - 1, 0;
      } else if interrupts > 0 && n == -EINTR {
        interrupts, ret := interrupts - 1, n;
      } else {
        broken, ret := true, -1;
      }
    }
  }

  /** The inner loop, over partial writes; it ends early only on an error. */
  method WriteText(fd: Sink, text: seq<Byte>) returns (ok: bool)
    modifies fd
    ensures ok ==> fd.data == old(fd.data) + text && fd.broken == old(fd.broken) && fd.interrupts == old(fd.interrupts)
    ensures !ok ==> fd.broken || fd.interrupts < old(fd.interrupts)
    ensures IsPrefix(old(fd.data), fd.data) && IsPrefix(fd.data, old(fd.data) + text)
    ensures fd.interrupts <= old(fd.interrupts)
  {
    var cur, size := text, |text|;
    while size > 0
      invariant size == |cur| && fd.data + cur == old(fd.data) + text && IsPrefix(old(fd.data), fd.data)
      invariant fd.broken == old(fd.broken) && fd.interrupts == old(fd.interrupts)
      decreases size, fd.patience
    {
      ghost var before := fd.data;
      var ret := fd.Write(cur);
      if ret < 0 { return false; }
      assert before + cur == (before + cur[..ret]) + cur[ret..];
      size, cur := size - ret, cur[ret..];
    }
    assert fd.data + [] == fd.data;
    ok := true;
  }

  /** `m` bytes of a string's size were written, and no more. */
  ghost predicate Cut(data: seq<Byte>, before: seq<Byte>, text: seq<Byte>, m: nat) {
    m < SIZE && data == before + EncodeSize(|text|, SIZE)[..m]
  }

  /** One string: its size in a single write, then its bytes. It fails only on an error, or when that
      single write is short. */
  method WriteSized(fd: Sink, text: seq<Byte>) returns (ok: bool)
    requires |text| < Pow256(SIZE)
    modifies fd
    ensures ok ==> fd.data == old(fd.data) + Encoded(text)
    ensures !ok ==>
              || fd.broken || fd.interrupts < old(fd.interrupts)
              || exists m :: Cut(fd.data, old(fd.data), text, m)
    ensures fd.interrupts <= old(fd.interrupts)
  {
    hide Pow256, DecodeSize, EncodeSize;
    var ret := fd.Write(EncodeSize(|text|, SIZE));
    if ret != SIZE {
      assert ret >= 0 ==> Cut(fd.data, old(fd.data), text, ret);
      return false;
    }
    assert EncodeSize(|text|, SIZE)[..SIZE] == EncodeSize(|text|, SIZE);
    ok := WriteText(fd, text);
  }

  /** It exits only on an error, or when the single write of a size is short. */
  method WriteNullTerminatedArray(fd: Sink, argv: seq<seq<Byte>>) returns (ok: bool)
    requires Representable(argv)
    modifies fd
    ensures ok ==> fd.data == old(fd.data) + EncodedArray(argv)
    ensures !ok ==>
              || fd.broken || fd.interrupts < old(fd.interrupts)
              || exists i: nat, m: nat :: i < |argv| && Cut(fd.data, old(fd.data) + EncodedArray(argv[..i]), argv[i], m)
  {
    hide Pow256, Encoded, EncodeSize;
    for i := 0 to |argv|
      invariant fd.data == old(fd.data) + EncodedArray(argv[..i]) && fd.interrupts <= old(fd.interrupts)
    {
      ghost var before := fd.data;
      var written := WriteSized(fd, argv[i]);
      if !written {
        assert before == old(fd.data) + EncodedArray(argv[..i]);
        return false;
      }
      assert argv[..i + 1][..i] == argv[..i];
      assert fd.data == old(fd.data) + (EncodedArray(argv[..i]) + Encoded(argv[i]));
    }
    assert argv[..|argv|] == argv;
    ok := true;
  }

  lemma {:induction false} FindInPrefix(a: seq<Byte>, b: seq<Byte>, d: seq<Byte>, i: nat)
    requires Find(a, d) == Some(i)
    ensures Find(a + b, d) == Some(i)
  {
    hide Find;
    AtInPrefix(a, b, d, i);
    forall j: nat | j < i ensures !At(a + b, d, j) {
      AtInPrefix(a, b, d, j);
    }
  }

  lemma {:induction false} AtInPrefix(a: seq<Byte>, b: seq<Byte>, d: seq<Byte>, i: nat)
    requires i + |d| <= |a|
    ensures At(a + b, d, i) <==> At(a, d, i)
  {
    assert (a + b)[i..i + |d|] == a[i..i + |d|];
  }

  /** The delimiter is stripped exactly if it is a single byte. */
  lemma {:induction false} StripsSingleBytes(t: seq<Byte>, d: seq<Byte>, i: nat)
    requires d != [] && Find(t, d) == Some(i)
    ensures t[i + 1..] == t[i + |d|..] <==> |d| == 1
  {
    assert |t[i + 1..]| == |t| - i - 1 && |t[i + |d|..]| == |t| - i - |d|;
  }

  /** Whatever the partial writes and the chunks, the reader gets back the list of strings. */
  method ReadBack(chunks: seq<seq<Byte>>, texts: seq<seq<Byte>>, rest: seq<Byte>) returns (r: Option<seq<seq<Byte>>>)
    requires Representable(texts) && (forall i :: 0 <= i < |chunks| ==> chunks[i] != [])
    requires Stream(chunks) == EncodedArray(texts) + rest
    ensures r == Some(texts)
  {
    var b := new AsyncReadBuffer(chunks);
    ArrayRoundTrip(texts, rest);
    r := b.ReadArray(|texts|);
  }
}
