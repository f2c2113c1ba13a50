/**
 `RequestQueue` with a single consumer. Continuations are resumed synchronously, and what they
 resume may use the same queue again: an operation carries what is done in the meantime.
 */
module RequestQueues {
  import opened Prelude

  datatype Op =
    | Request(id: int, inner: seq<Op>)         // `inner` is done by whoever the request resumes
    | GetOne
    | GetMany
    | FetchAny
    | Close(inners: seq<Script>)              // `inners[i]` is done by the i-th continuation thrown

  datatype Script = Script(ops: seq<Op>)

  /** Every request among these operations has been accepted or refused. */
  ghost predicate Came(ops: seq<Op>, accepted: seq<int>, refused: seq<int>) {
    forall i :: 0 <= i < |ops| && ops[i].Request? ==> ops[i].id in accepted || ops[i].id in refused
  }

  /** The first `n` continuations thrown have done what they do. */
  ghost predicate Threw(inners: seq<Script>, n: nat, accepted: seq<int>, refused: seq<int>) {
    forall i :: 0 <= i < n && i < |inners| ==> Came(inners[i].ops, accepted, refused)
  }

  lemma {:induction false} CameOnce(ops: seq<Op>, a: seq<int>, r: seq<int>, b: seq<int>, q: seq<int>)
    requires Came(ops, a, r) && IsPrefix(a, b) && IsPrefix(r, q)
    ensures Came(ops, b, q)
  {
    forall x | x in a ensures x in b { }
    forall x | x in r ensures x in q { }
  }

  lemma {:induction false} CameItself(op: Op, a: seq<int>, r: seq<int>)
    requires op.Request? && (IsLast(op.id, a) || IsLast(op.id, r))
    ensures Came([op], a, r)
  {
  }

  ghost predicate IsLast(id: int, s: seq<int>) {
    |s| > 0 && s[|s| - 1] == id
  }

  lemma {:induction false} CameMore(ops: seq<Op>, i: nat, a: seq<int>, r: seq<int>, b: seq<int>, q: seq<int>)
    requires i < |ops| && Came(ops[..i], a, r) && IsPrefix(a, b) && IsPrefix(r, q)
    requires ops[i].Request? ==> Came([ops[i]], b, q)
    ensures Came(ops[..i + 1], b, q)
  {
    CameOnce(ops[..i], a, r, b, q);
    forall j | 0 <= j < i + 1 && ops[j].Request? ensures ops[j].id in b || ops[j].id in q {
      if j < i { assert ops[..i][j] == ops[j]; } else { assert [ops[i]][0] == ops[j]; }
    }
  }

  lemma {:induction false} ThrewMore(inners: seq<Script>, i: nat, a: seq<int>, r: seq<int>, b: seq<int>, q: seq<int>)
    requires Threw(inners, i, a, r) && IsPrefix(a, b) && IsPrefix(r, q)
    requires i < |inners| ==> Came(inners[i].ops, b, q)
    ensures Threw(inners, i + 1, b, q)
  {
    hide Came, IsPrefix;
    forall j | 0 <= j < i && j < |inners| ensures Came(inners[j].ops, b, q) { CameOnce(inners[j].ops, a, r, b, q); }
  }

  lemma {:induction false} NoneThrown(inners: seq<Script>, a: seq<int>, r: seq<int>)
    ensures Threw(inners, 0, a, r)
  {
  }

  class RequestQueue {
    var queue: seq<int>               // _request_cbs
    var receiver: bool                // _receiver_cb is set
    var closed: bool                  // _final_exn is set
    ghost var accepted: seq<int>      // requests not refused on arrival, in order
    ghost var handed: seq<int>        // given to the consumer
    ghost var dropped: seq<int>       // thrown by close
    ghost var closing: seq<int>       // still to be thrown by close
    ghost var refused: seq<int>       // thrown on arrival

    /** Each accepted request is in exactly one place, in order of arrival; a waiting receiver
        means that nothing is queued. */
    ghost predicate Valid()
      reads this
    {
      && accepted == handed + dropped + closing + queue
      && (receiver ==> queue == [])
      && (if closed then queue == [] else dropped == [] && closing == [])
    }

    constructor ()
      ensures Valid() && !closed && accepted == []
    {
      queue, receiver, closed := [], false, false;
      accepted, handed, dropped, closing, refused := [], [], [], [], [];
    }

    /** Nothing is taken back, and a closed queue hands out nothing more. */
    ghost predicate Advances(was: bool, wasAccepted: seq<int>, wasHanded: seq<int>, wasDropped: seq<int>,
        wasClosing: seq<int>, wasRefused: seq<int>)
      reads this
    {
      && IsPrefix(wasAccepted, accepted) && IsPrefix(wasHanded, handed) && IsPrefix(wasRefused, refused)
      && (was ==>
           closed && accepted == wasAccepted && handed == wasHanded && dropped == wasDropped && closing == wasClosing)
    }

    /** `request_cb`, without what it resumes: thrown, handed over, or queued. */
    method Arrive(id: int) returns (resumes: bool)
      requires Valid()
      modifies this
      ensures Valid() && closed == old(closed) && dropped == old(dropped) && closing == old(closing)
      ensures closed ==>
                resumes && refused == old(refused) + [id] && accepted == old(accepted) && handed == old(handed)
                && receiver == old(receiver)
      ensures !closed ==> accepted == old(accepted) + [id] && refused == old(refused)
      ensures !closed && old(receiver) ==> resumes && !receiver && handed == old(handed) + [id] && queue == []
      ensures !closed && !old(receiver) ==> !resumes && !receiver && handed == old(handed) && queue == old(queue) + [id]
    {
      if closed {
        refused, resumes := refused + [id], true;
        return;
      }
      accepted := accepted + [id];
      resumes := receiver;
      if receiver {
        receiver, handed := false, handed + [id];
      } else {
        queue := queue + [id];
      }
    }

    /** `get_one`: the oldest request, or the consumer waits. */
    method TakeOne() returns (taken: seq<int>)
      requires Valid() && !receiver
      modifies this
      ensures Valid() && closed == old(closed) && dropped == old(dropped) && closing == old(closing)
              && accepted == old(accepted) && refused == old(refused)
      ensures handed == old(handed) + taken && old(queue) == taken + queue
      ensures old(queue) == [] ==> taken == [] && receiver
      ensures old(queue) != [] ==> |taken| == 1 && !receiver
    {
      if queue == [] {
        receiver, taken := true, [];
      } else {
        taken := [queue[0]];
        handed, queue := handed + [queue[0]], queue[1..];
      }
    }

    /** `fetch_any`, and `get_many` when there is something: all of it, in order. */
    method TakeAll() returns (taken: seq<int>)
      requires Valid()
      modifies this
      ensures Valid() && closed == old(closed) && dropped == old(dropped) && closing == old(closing)
              && accepted == old(accepted) && refused == old(refused)
      ensures receiver == old(receiver) && taken == old(queue) && queue == [] && handed == old(handed) + taken
    {
      taken := queue;
      handed, queue := handed + queue, [];
    }

    /** What one operation does, whatever happens inside it. */
    twostate predicate Did(op: Op)
      reads this
    {
      match op
      case Request(id, inner) =>
        && (old(closed) ==> IsPrefix(old(refused) + [id], refused))
        && (!old(closed) ==> IsPrefix(old(accepted) + [id], accepted))
        && (!old(closed) && old(receiver) ==> IsPrefix(old(handed) + [id], handed))
        && (!old(closed) && !old(receiver) ==> queue == old(queue) + [id] && handed == old(handed) && !receiver)
        && (old(closed) || old(receiver) ==> Came(inner, accepted, refused))
      case GetOne =>
        if old(receiver) || old(queue) == [] then receiver && handed == old(handed)
        else !receiver && handed == old(handed) + [old(queue)[0]] && queue == old(queue)[1..]
      case GetMany =>
        if old(queue) == [] then receiver && handed == old(handed)
        else receiver == old(receiver) && handed == old(handed) + old(queue) && queue == []
      case FetchAny => receiver == old(receiver) && handed == old(handed) + old(queue) && queue == []
      case Close(inners) =>
        && closed && dropped == old(dropped) + old(queue)
        && Threw(inners, |old(queue)|, accepted, refused)
    }

    /** Any operation with everything that happens inside it. */
    method Do(op: Op)
      requires Valid()
      modifies this
      ensures Valid() && Advances(old(closed), old(accepted), old(handed), old(dropped), old(closing), old(refused))
      ensures Did(op) && (op.Request? ==> Came([op], accepted, refused))
      decreases op
    {
      hide Came, Threw;
      match op
      case Request(id, inner) =>
        var resumes := Arrive(id);
        CameItself(op, accepted, refused);
        ghost var a, r := accepted, refused;
        if resumes { DoAll(inner); }
        CameOnce([op], a, r, accepted, refused);
      case GetOne =>
        if !receiver { var _ := TakeOne(); }        // a second receiver is an assertion failure
      case GetMany =>
        if queue != [] { var _ := TakeAll(); } else { receiver := true; }
      case FetchAny =>
        var _ := TakeAll();
      case Close(inners) =>
        DoClose(inners);
    }

    method DoAll(ops: seq<Op>)
      requires Valid()
      modifies this
      ensures Valid() && Advances(old(closed), old(accepted), old(handed), old(dropped), old(closing), old(refused))
      ensures Came(ops, accepted, refused)
      decreases ops
    {
      hide Threw, Did;
      for i := 0 to |ops|
        invariant Valid() && Advances(old(closed), old(accepted), old(handed), old(dropped), old(closing), old(refused))
        invariant Came(ops[..i], accepted, refused)
      {
        ghost var a, r := accepted, refused;
        Do(ops[i]);
        CameMore(ops, i, a, r, accepted, refused);
      }
      assert ops[..|ops|] == ops;
    }

    /** `close`: everything queued is thrown, once each, whatever the thrown continuations do. */
    method DoClose(inners: seq<Script>)
      requires Valid()
      modifies this
      ensures Valid() && closed && queue == []
      ensures dropped == old(dropped) + old(queue) && closing == old(closing) && handed == old(handed)
              && accepted == old(accepted)
      ensures IsPrefix(old(refused), refused)
      ensures Threw(inners, |old(queue)|, accepted, refused)
      decreases inners
    {
      hide Came, Threw, Did;
      assert Threw(inners, 0, accepted, refused) by { NoneThrown(inners, accepted, refused); }
      var cbs := queue;
      closed, queue := true, [];
      ghost var outer := closing;
      closing := cbs + closing;
      for i := 0 to |cbs|
        invariant Valid() && closed && closing == cbs[i..] + outer && dropped == old(dropped) + cbs[..i]
        invariant handed == old(handed) && accepted == old(accepted) && IsPrefix(old(refused), refused)
        invariant Threw(inners, i, accepted, refused)
      {
        Throws(cbs, i, outer);
        closing, dropped := closing[1..], dropped + [cbs[i]];
        ghost var a, r := accepted, refused;
        if i < |inners| { DoAll(inners[i].ops); }
        ThrewMore(inners, i, a, r, accepted, refused);
      }
    }
  }

  lemma {:induction false} Throws(cbs: seq<int>, i: nat, outer: seq<int>)
    requires i < |cbs|
    ensures (cbs[i..] + outer)[1..] == cbs[i + 1..] + outer && cbs[..i] + [cbs[i]] == cbs[..i + 1]
    ensures cbs[..i] + (cbs[i..] + outer) == cbs[..i + 1] + (cbs[i + 1..] + outer)
  {
  }

  /** Requests reach the consumer in the order in which they were accepted. */
  lemma {:induction false} HandedInOrder(accepted: seq<int>, handed: seq<int>, dropped: seq<int>, closing: seq<int>,
      queue: seq<int>)
    requires accepted == handed + dropped + closing + queue
    ensures IsPrefix(handed, accepted)
    ensures multiset(accepted) == multiset(handed) + multiset(dropped) + multiset(closing) + multiset(queue)
  {
  }
}
