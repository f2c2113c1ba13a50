/** `PersistentSyscallConnection`: syscalls parked while disconnected, and their order afterwards. */
module Persistent {
  import opened Prelude
  /** A syscall, and the syscalls that code resumed by sending it issues before control returns. One
      that fails on the new connection during the drain parks again: it is then among its own issues. */
  datatype Call = Call(id: int, issues: seq<Call>)

  function Size(c: Call): nat { 1 + SizeAll(c.issues) }

  function SizeAll(cs: seq<Call>): nat {
    if cs == [] then 0 else Size(cs[0]) + SizeAll(cs[1..])
  }

  lemma {:induction false} SizeJoin(a: seq<Call>, b: seq<Call>)
    ensures SizeAll(a + b) == SizeAll(a) + SizeAll(b)
    decreases |a|
  {
    if a == [] {
      assert a + b == b;
    } else {
      assert (a + b)[1..] == a[1..] + b;
      SizeJoin(a[1..], b);
    }
  }

  /** What a round of sends leaves to the next round. */
  function Issued(cs: seq<Call>): seq<Call> {
    if cs == [] then [] else cs[0].issues + Issued(cs[1..])
  }

  function Ids(cs: seq<Call>): seq<int> {
    seq(|cs|, i requires 0 <= i < |cs| => cs[i].id)
  }

  lemma {:induction false} RoundShrinks(cs: seq<Call>)
    ensures SizeAll(Issued(cs)) + |cs| == SizeAll(cs)
    decreases |cs|
  {
    if cs != [] {
      RoundShrinks(cs[1..]);
      SizeJoin(cs[0].issues, Issued(cs[1..]));
    }
  }

  /** First come, first served: each call is sent after everything parked before it. */
  function Fifo(cs: seq<Call>): seq<int>
    decreases SizeAll(cs)
  {
    if cs == [] then []
    else
      SizeJoin(cs[1..], cs[0].issues);
      assert Size(cs[0]) == 1 + SizeAll(cs[0].issues);
      [cs[0].id] + Fifo(cs[1..] + cs[0].issues)
  }

  /** The order of set_new_conn: whole rounds. */
  function Rounds(cs: seq<Call>): seq<int>
    decreases SizeAll(cs)
  {
    if cs == [] then [] else RoundShrinks(cs); Ids(cs) + Rounds(Issued(cs))
  }

  lemma {:induction false} FifoRound(cs: seq<Call>, later: seq<Call>)
    ensures Fifo(cs + later) == Ids(cs) + Fifo(later + Issued(cs))
    decreases |cs|
  {
    if cs == [] {
      assert cs + later == later && later + Issued(cs) == later && Ids(cs) == [];
    } else {
      var all := cs + later;
      assert all[1..] == cs[1..] + later;
      assert all[1..] + cs[0].issues == cs[1..] + (later + cs[0].issues);
      FifoRound(cs[1..], later + cs[0].issues);
      assert (later + cs[0].issues) + Issued(cs[1..]) == later + Issued(cs);
      assert Ids(cs) == [cs[0].id] + Ids(cs[1..]);
    }
  }

  /** Draining in rounds is first come, first served. */
  lemma {:induction false} RoundsAreFifo(cs: seq<Call>)
    ensures Rounds(cs) == Fifo(cs)
    decreases SizeAll(cs)
  {
    if cs != [] {
      RoundShrinks(cs);
      FifoRound(cs, []);
      assert cs + [] == cs && [] + Issued(cs) == Issued(cs);
      RoundsAreFifo(Issued(cs));
    }
  }

  /** Every call anywhere among the parked ones is sent exactly once. */
  function All(cs: seq<Call>): multiset<int> {
    if cs == [] then multiset{} else multiset{cs[0].id} + All(cs[0].issues) + All(cs[1..])
  }

  lemma {:induction false} AllJoin(a: seq<Call>, b: seq<Call>)
    ensures All(a + b) == All(a) + All(b)
    decreases |a|
  {
    if a == [] {
      assert a + b == b;
    } else {
      assert (a + b)[1..] == a[1..] + b;
      AllJoin(a[1..], b);
    }
  }

  lemma {:induction false} FifoSendsAll(cs: seq<Call>)
    ensures multiset(Fifo(cs)) == All(cs)
    decreases SizeAll(cs)
  {
    if cs != [] {
      SizeJoin(cs[1..], cs[0].issues);
      assert Size(cs[0]) == 1 + SizeAll(cs[0].issues);
      FifoSendsAll(cs[1..] + cs[0].issues);
      AllJoin(cs[1..], cs[0].issues);
    }
  }

  datatype Sent = Sent(conn: int, id: int)

  function On(conn: int, ids: seq<int>): seq<Sent> {
    seq(|ids|, i requires 0 <= i < |ids| => Sent(conn, ids[i]))
  }

  class PersistentSyscallConnection {
    var conn: Option<int>
    var activityConn: Option<int>
    var parked: seq<Call>             // _new_conn_cbs
    var sent: seq<Sent>               // every syscall handed to a connection

    /** While there is a connection, nobody is parked. */
    ghost predicate Valid()
      reads this
    {
      conn.Some? ==> parked == [] && activityConn == conn
    }

    constructor (conn: int)
      ensures Valid() && this.conn == Some(conn) && sent == []
    {
      this.conn, activityConn, parked, sent := Some(conn), Some(conn), [], [];
    }

    /** One turn of the loop in `syscall`. */
    method Syscall(c: Call)
      requires Valid() && c.issues == []
      modifies this
      ensures Valid() && conn == old(conn) && activityConn == old(activityConn)
      ensures conn.None? ==> parked == old(parked) + [c] && sent == old(sent)
      ensures conn.Some? ==> parked == [] && sent == old(sent) + [Sent(conn.value, c.id)]
    {
      if conn.None? {
        parked := parked + [c];
      } else {
        sent := sent + [Sent(conn.value, c.id)];
      }
    }

    /** A syscall on `used` could not be sent: the connection is given up, once, and it tries again. */
    method SendFailed(used: int, c: Call)
      requires Valid() && c.issues == []
      modifies this
      ensures Valid()
      ensures conn == if old(conn) == Some(used) then None else old(conn)
      ensures conn.None? ==> parked == old(parked) + [c] && sent == old(sent)
      ensures conn.Some? ==> parked == [] && sent == old(sent) + [Sent(conn.value, c.id)]
    {
      if conn == Some(used) { conn, activityConn := None, None; }
      Syscall(c);
    }

    /** One round: everything parked is sent, and what that issues is parked for the next. */
    method SendRound(link: int)
      requires conn.None?
      modifies this`parked, this`sent
      ensures sent == old(sent) + On(link, Ids(old(parked))) && parked == Issued(old(parked))
    {
      var cbs := parked;
      parked := [];
      hide SizeAll;
      for i := 0 to |cbs|
        invariant sent == old(sent) + On(link, Ids(cbs[..i])) && parked == Issued(cbs[..i])
      {
        sent := sent + [Sent(link, cbs[i].id)];
        parked := parked + cbs[i].issues;
        IssuedMore(cbs, i);
      }
      assert cbs[..|cbs|] == cbs;
    }

    /** Sends everything parked, and what is parked meanwhile, in order of parking, and only then
        takes the new connection. */
    method SetNewConn(link: int)
      requires Valid() && conn.None?
      modifies this
      ensures Valid() && conn == Some(link) && parked == []
      ensures sent == old(sent) + On(link, Fifo(old(parked)))
      ensures |sent| >= |old(sent)| + |old(parked)| && forall i :: 0 <= i < |old(parked)| ==>
                sent[|old(sent)| + i] == Sent(link, old(parked)[i].id)
    {
      activityConn := Some(link);
      hide Rounds, Fifo, Issued, SizeAll, Ids;
      while parked != []
        invariant conn.None? && activityConn == Some(link)
        invariant sent + On(link, Rounds(parked)) == old(sent) + On(link, Rounds(old(parked)))
        decreases SizeAll(parked)
      {
        ghost var cbs, before := parked, sent;
        RoundShrinks(cbs);
        SendRound(link);
        OneRound(link, cbs, before);
      }
      RoundsAreFifo(old(parked));
      ParkedFirst(old(parked));
      assert sent + On(link, Rounds([])) == sent by { NoRound(); }
      conn := Some(link);
    }
  }

  /** What was parked is sent before anything it leads to, in order of parking. */
  lemma {:induction false} ParkedFirst(cs: seq<Call>)
    ensures |Fifo(cs)| >= |cs| && forall i :: 0 <= i < |cs| ==> Fifo(cs)[i] == cs[i].id
  {
    FifoRound(cs, []);
    assert cs + [] == cs;
  }

  lemma {:induction false} NoRound()
    ensures Rounds([]) == []
  {
  }

  lemma {:induction false} OneRound(link: int, cs: seq<Call>, before: seq<Sent>)
    requires cs != []
    ensures before + On(link, Rounds(cs)) == before + On(link, Ids(cs)) + On(link, Rounds(Issued(cs)))
  {
    RoundShrinks(cs);
    assert On(link, Ids(cs) + Rounds(Issued(cs))) == On(link, Ids(cs)) + On(link, Rounds(Issued(cs)));
  }

  lemma {:induction false} IssuedJoin(a: seq<Call>, c: Call)
    ensures Issued(a + [c]) == Issued(a) + c.issues
    decreases |a|
  {
    if a == [] {
      assert a + [c] == [c] && Issued([c]) == c.issues + [];
    } else {
      assert (a + [c])[1..] == a[1..] + [c];
      IssuedJoin(a[1..], c);
    }
  }

  lemma {:induction false} IssuedMore(cs: seq<Call>, i: nat)
    requires i < |cs|
    ensures Issued(cs[..i + 1]) == Issued(cs[..i]) + cs[i].issues && Ids(cs[..i + 1]) == Ids(cs[..i]) + [cs[i].id]
  {
    assert cs[..i + 1] == cs[..i] + [cs[i]];
    IssuedJoin(cs[..i], cs[i]);
  }
}
