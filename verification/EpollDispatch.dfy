/**
 `EpollWaiter`: numbers handed out for registrations, and events dispatched to continuations by
 number. Kernel steps (EPOLL_CTL_ADD, EPOLL_CTL_DEL, epoll_wait) are methods of their own.
 */
module EpollDispatch {
  import opened Prelude

  /** The `data` of an epoll registration. */
  datatype Number = Number(value: int)

  /** Numbers above a point: what `allocate_number` has still to step over. */
  ghost function Above(used: set<Number>, n: int): set<Number> {
    set u | u in used && u.value >= n
  }

  lemma {:induction false} FewerAbove(used: set<Number>, n: int, m: int)
    requires Number(n) in used && n < m
    ensures |Above(used, m)| < |Above(used, n)|
  {
    assert Number(n) in Above(used, n) && Number(n) !in Above(used, m);
    assert Above(used, m) < Above(used, n);
    Smaller(Above(used, m), Above(used, n));
  }

  lemma {:induction false} Smaller(a: set<Number>, b: set<Number>)
    requires a < b
    ensures |a| < |b|
  {
    assert exists x :: x in b && x !in a;
    var x :| x in b && x !in a;
    assert a <= b - {x};
    NotLarger(a, b - {x});
  }

  lemma {:induction false} NotLarger(a: set<Number>, b: set<Number>)
    requires a <= b
    ensures |a| <= |b|
    decreases a
  {
    if x :| x in a {
      NotLarger(a - {x}, b - {x});
    } else {
      assert a == {};
    }
  }

  /** A request for the next event of a number. */
  datatype Request = Request(number: Number, continuation: int)

  ghost predicate Queued(queue: seq<Request>, n: Number) {
    exists i :: 0 <= i < |queue| && queue[i].number == n
  }

  lemma {:induction false} QueuedMore(queue: seq<Request>, r: Request)
    ensures forall n :: Queued(queue + [r], n) <==> Queued(queue, n) || n == r.number
  {
    var q := queue + [r];
    assert q[|queue|] == r;
    forall n | Queued(queue, n) ensures Queued(q, n) {
      var i :| 0 <= i < |queue| && queue[i].number == n;
      assert q[i].number == n;
    }
  }

  /** Every live number has exactly one continuation, in the queue or in the dictionary. */
  ghost predicate Matched(queue: seq<Request>, cbs: map<Number, int>, awaiting: map<Number, int>) {
    && (forall i :: 0 <= i < |queue| ==>
         queue[i].number in awaiting && queue[i].continuation == awaiting[queue[i].number] && queue[i].number !in cbs)
    && (forall i, j :: 0 <= i < j < |queue| ==> queue[i].number != queue[j].number)
    && (forall n :: n in cbs ==> n in awaiting && cbs[n] == awaiting[n])
    && (forall n :: n in awaiting ==> n in cbs || Queued(queue, n))
  }

  lemma {:induction false} AskKeeps(queue: seq<Request>, cbs: map<Number, int>, awaiting: map<Number, int>, r: Request)
    requires Matched(queue, cbs, awaiting) && r.number !in awaiting
    ensures Matched(queue + [r], cbs, awaiting[r.number := r.continuation])
  {
    QueuedMore(queue, r);
    hide Queued;
  }

  lemma {:induction false} TakeKeeps(queue: seq<Request>, cbs: map<Number, int>, awaiting: map<Number, int>, n: Number)
    requires Matched(queue, cbs, awaiting) && n in cbs
    ensures Matched(queue, cbs - {n}, awaiting - {n})
  {
    hide Queued;
  }

  /** These numbers' continuations wait on, except for those of `gone`; other numbers are new. */
  ghost predicate WaitOn(was: map<Number, int>, now: map<Number, int>, gone: set<Number>, used: set<Number>) {
    && (forall n :: n in was && n !in gone ==> n in now && now[n] == was[n])
    && (forall n :: n in now ==> n in was || n !in used)
  }

  /** These numbers have a continuation that is not among the first `next`. */
  ghost predicate AskAgain(numbers: set<Number>, now: map<Number, int>, next: int) {
    forall n :: n in numbers ==> n in now && now[n] >= next
  }

  lemma {:induction false} WaitOnThen(a: map<Number, int>, b: map<Number, int>, c: map<Number, int>,
                                      gone: set<Number>, more: set<Number>, used: set<Number>, later: set<Number>)
    requires WaitOn(a, b, gone, used) && WaitOn(b, c, more, later) && used <= later
    ensures WaitOn(a, c, gone + more, used)
  {
  }

  lemma {:induction false} AskOn(numbers: set<Number>, b: map<Number, int>, c: map<Number, int>, next: int,
                                 gone: set<Number>, used: set<Number>)
    requires AskAgain(numbers, b, next) && WaitOn(b, c, gone, used)
    ensures AskAgain(numbers - gone, c, next)
  {
  }

  lemma {:induction false} NobodyYet(awaiting: map<Number, int>, used: set<Number>, next: int)
    ensures WaitOn(awaiting, awaiting, Elements([]), used) && AskAgain(Elements([]), awaiting, next)
  {
  }

  lemma {:induction false} SentOne(a: map<Number, int>, b: map<Number, int>, used: set<Number>, next: int,
                                   reported: seq<Number>, i: nat, c: int)
    requires i < |reported| && reported[i] in a && next <= c
    requires WaitOn(a, b, Elements(reported[..i]), used) && AskAgain(Elements(reported[..i]), b, next)
    ensures WaitOn(a, b[reported[i] := c], Elements(reported[..i + 1]), used)
    ensures AskAgain(Elements(reported[..i + 1]), b[reported[i] := c], next)
  {
    assert reported[..i + 1] == reported[..i] + [reported[i]];
  }

  lemma {:induction false} OnlyMore(a: map<Number, int>, b: map<Number, int>, c: map<Number, int>, gone: set<Number>,
                                    used: set<Number>, later: set<Number>, next: int)
    requires WaitOn(a, b, gone, used) && WaitOn(b, c, {}, later) && used <= later && AskAgain(gone, b, next)
    ensures WaitOn(a, c, gone, used) && AskAgain(gone, c, next)
  {
  }

  ghost function Elements(s: seq<Number>): set<Number> {
    set n | n in s
  }

  class EpollWaiter {
    var used: set<Number>
    var pendingRemove: set<Number>
    var queue: seq<Request>
    var numberToCb: map<Number, int>
    var next: int                          // continuations are numbered
    ghost var awaiting: map<Number, int>      // the one continuation that waits for each live number
    ghost var adding: set<Number>             // registrations not yet added in the kernel
    ghost var registered: set<Number>         // in the kernel's epoll instance
    ghost var removed: set<Number>
    ghost var events: seq<Number>             // returned by epoll_wait and not dispatched

    ghost predicate Numbered()
      reads this
    {
      && (forall n :: n in awaiting || n in removed ==> n in used)
      && (forall n :: n in removed ==> n !in awaiting)
      && (forall n :: n in registered || n in adding || n in pendingRemove || n in events ==> n in awaiting)
      && (forall n :: n in pendingRemove ==> n !in registered && n !in adding)
      && (forall n :: n in adding ==> n !in registered)
      && (forall n :: n in awaiting ==> awaiting[n] < next)
      && Distinct(events)
    }

    ghost predicate Valid()
      reads this
    {
      Matched(queue, numberToCb, awaiting) && Numbered()
    }

    constructor ()
      ensures Valid() && used == {} && events == []
    {
      used, pendingRemove, queue, numberToCb, next := {}, {}, [], map[], 0;
      awaiting, adding, registered, removed, events := map[], {}, {}, {}, [];
    }

    /** The first number not in use among request, request + 1000, and so on. */
    method AllocateNumber(request: int) returns (number: Number, ghost steps: nat)
      modifies this`used
      ensures number !in old(used) && used == old(used) + {number}
      ensures number == Number(request + 1000 * steps) && forall k :: 0 <= k < steps ==>
                Number(request + 1000 * k) in old(used)
    {
      number, steps := Number(request), 0;
      while number in used
        invariant number == Number(request + 1000 * steps) && used == old(used)
        invariant forall k :: 0 <= k < steps ==> Number(request + 1000 * k) in used
        decreases |Above(used, number.value)|
      {
        FewerAbove(used, number.value, number.value + 1000);
        number, steps := Number(number.value + 1000), steps + 1;
      }
      used := used + {number};
    }

    /** `register` up to the kernel call: the new descriptor's loop asks for its first event. */
    method Register(request: int) returns (number: Number)
      requires Valid()
      modifies this
      ensures Valid() && number !in old(used) && used == old(used) + {number}
              && awaiting == old(awaiting)[number := old(next)]
      ensures adding == old(adding) + {number} && registered == old(registered) && removed == old(removed)
      ensures pendingRemove == old(pendingRemove) && events == old(events) && numberToCb == old(numberToCb)
      ensures queue == old(queue) + [Request(number, old(next))] && next == old(next) + 1
    {
      ghost var steps;
      number, steps := AllocateNumber(request);
      AskKeeps(queue, numberToCb, awaiting, Request(number, next));
      hide Matched;
      queue := queue + [Request(number, next)];
      awaiting, adding, next := awaiting[number := next], adding + {number}, next + 1;
    }

    ghost method AddRuns(number: Number)
      requires Valid() && number in adding
      modifies this`adding, this`registered
      ensures Valid() && registered == old(registered) + {number} && adding == old(adding) - {number}
    {
      adding, registered := adding - {number}, registered + {number};
    }

    /** `delete` follows only on a finished `register`. */
    ghost method DelRuns(number: Number)
      requires Valid() && number in registered
      modifies this`registered
      ensures Valid() && registered == old(registered) - {number}
    {
      registered := registered - {number};
    }

    /** The rest of `delete`. */
    method RemoveAfterNextWait(number: Number)
      requires Valid() && number in awaiting && number !in registered && number !in adding
      modifies this`pendingRemove
      ensures Valid() && pendingRemove == old(pendingRemove) + {number}
    {
      pendingRemove := pendingRemove + {number};
    }

    /** epoll_wait reports registered files, each at most once. */
    ghost method WaitRuns(reported: seq<Number>)
      requires Valid() && events == [] && Distinct(reported) && forall n :: n in reported ==> n in registered
      modifies this`events
      ensures Valid() && events == reported
      ensures forall n :: n in removed ==> n !in events
    {
      events := reported;
    }

    /** `fetch_any` into the dictionary, which then has everybody. */
    method Fetch()
      requires Matched(queue, numberToCb, awaiting)
      modifies this`queue, this`numberToCb
      ensures Matched(queue, numberToCb, awaiting) && queue == [] && numberToCb == awaiting
    {
      var fetched := queue;
      for i := 0 to |fetched|
        invariant queue == fetched && awaiting == old(awaiting)
        invariant forall n :: n in numberToCb <==> n in old(numberToCb) || Queued(fetched[..i], n)
        invariant forall n :: n in numberToCb ==> n in awaiting && numberToCb[n] == awaiting[n]
      {
        QueuedMore(fetched[..i], fetched[i]);
        assert fetched[..i + 1] == fetched[..i] + [fetched[i]];
        numberToCb := numberToCb[fetched[i].number := fetched[i].continuation];
      }
      assert fetched[..|fetched|] == fetched;
      queue := [];
    }

    /** Resumes the continuation of one event; its loop asks for the next event at once. */
    method Send(n: Number)
      requires Valid() && events == [] && n in numberToCb
      modifies this
      ensures Valid() && events == [] && numberToCb == old(numberToCb) - {n}
      ensures awaiting == old(awaiting)[n := old(next)] && next == old(next) + 1 && used == old(used)
      ensures pendingRemove == old(pendingRemove) && removed == old(removed) && registered == old(registered)
    {
      TakeKeeps(queue, numberToCb, awaiting, n);
      AskKeeps(queue, numberToCb - {n}, awaiting - {n}, Request(n, next));
      assert n in awaiting && (awaiting - {n})[n := next] == awaiting[n := next];
      hide Matched;
      numberToCb := numberToCb - {n};
      queue := queue + [Request(n, next)];
      awaiting, next := awaiting[n := next], next + 1;
    }

    /** Resumes the continuations of these events; the code they resume may register more files. */
    method SendAll(reported: seq<Number>, during: seq<seq<int>>) returns (resumed: seq<Request>)
      requires Valid() && events == [] && |during| == |reported| && Distinct(reported)
      requires forall n :: n in reported ==> n in numberToCb && n in awaiting && awaiting[n] == numberToCb[n]
      modifies this
      ensures Valid() && events == [] && old(used) <= used && old(next) <= next
      ensures pendingRemove == old(pendingRemove) && removed == old(removed) && registered == old(registered)
      ensures |resumed| == |reported| && forall i :: 0 <= i < |reported| ==>
                reported[i] in old(awaiting) && resumed[i] == Request(reported[i], old(awaiting)[reported[i]])
      ensures WaitOn(old(awaiting), awaiting, Elements(reported), old(used))
      ensures AskAgain(Elements(reported), awaiting, old(next))
    {
      hide Matched, Numbered, Elements, WaitOn, AskAgain;
      resumed := [];
      NobodyYet(awaiting, used, next);
      for i := 0 to |reported|
        invariant Valid() && events == [] && old(used) <= used && old(next) <= next
        invariant pendingRemove == old(pendingRemove) && removed == old(removed) && registered == old(registered)
        invariant forall j :: i <= j < |reported| ==>
                    && reported[j] in numberToCb && reported[j] in old(awaiting)
                    && numberToCb[reported[j]] == old(awaiting)[reported[j]]
        invariant |resumed| == i && forall j :: 0 <= j < i ==>
                    reported[j] in old(awaiting) && resumed[j] == Request(reported[j], old(awaiting)[reported[j]])
        invariant WaitOn(old(awaiting), awaiting, Elements(reported[..i]), old(used))
        invariant AskAgain(Elements(reported[..i]), awaiting, old(next))
      {
        var n := reported[i];
        resumed := resumed + [Request(n, numberToCb[n])];
        ghost var was := awaiting;
        Send(n);
        SentOne(old(awaiting), was, old(used), old(next), reported, i, next - 1);
        ghost var now, known := awaiting, used;
        RegisterAll(during[i]);
        OnlyMore(old(awaiting), now, awaiting, Elements(reported[..i + 1]), old(used), known, old(next));
      }
      assert reported[..|reported|] == reported;
    }

    /** Throws RemovedFromEpollError to the continuations of deleted registrations; the code that is
        thrown into may register more files. */
    method RemovePending(reaction: Number -> seq<int>) returns (thrown: seq<Number>)
      requires Valid() && events == [] && forall n :: n in pendingRemove ==> n in numberToCb
      modifies this
      ensures Valid() && events == [] && pendingRemove == {} && removed == old(removed) + old(pendingRemove)
      ensures Distinct(thrown) && forall n :: n in thrown <==> n in old(pendingRemove)
      ensures registered == old(registered) && old(used) <= used && old(next) <= next
      ensures WaitOn(old(awaiting), awaiting, old(pendingRemove), old(used))
    {
      thrown := [];
      hide Matched;
      while pendingRemove != {}
        invariant Valid() && events == [] && pendingRemove <= old(pendingRemove) && forall n :: n in pendingRemove ==>
                    n in numberToCb
        invariant removed == old(removed) + (old(pendingRemove) - pendingRemove)
        invariant Distinct(thrown) && forall n :: n in thrown <==> n in old(pendingRemove) && n !in pendingRemove
        invariant registered == old(registered) && old(used) <= used && old(next) <= next
        invariant WaitOn(old(awaiting), awaiting, old(pendingRemove), old(used))
        decreases pendingRemove
      {
        var n :| n in pendingRemove;
        RemoveOne(n);
        thrown := thrown + [n];
        RegisterAll(reaction(n));
      }
    }

    method RemoveOne(n: Number)
      requires Valid() && events == [] && n in pendingRemove && n in numberToCb
      modifies this
      ensures Valid() && events == [] && pendingRemove == old(pendingRemove) - {n} && removed == old(removed) + {n}
      ensures numberToCb == old(numberToCb) - {n} && awaiting == old(awaiting) - {n}
      ensures registered == old(registered) && used == old(used) && next == old(next)
    {
      TakeKeeps(queue, numberToCb, awaiting, n);
      hide Matched;
      numberToCb, pendingRemove := numberToCb - {n}, pendingRemove - {n};
      awaiting, removed := awaiting - {n}, removed + {n};
    }

    /** Registrations made by resumed code. */
    method RegisterAll(requests: seq<int>)
      requires Valid()
      modifies this
      ensures Valid() && events == old(events) && numberToCb == old(numberToCb)
      ensures pendingRemove == old(pendingRemove) && removed == old(removed) && registered == old(registered)
      ensures WaitOn(old(awaiting), awaiting, {}, old(used)) && old(used) <= used && old(next) <= next
    {
      hide Matched;
      for i := 0 to |requests|
        invariant Valid() && events == old(events) && numberToCb == old(numberToCb)
        invariant pendingRemove == old(pendingRemove) && removed == old(removed) && registered == old(registered)
        invariant WaitOn(old(awaiting), awaiting, {}, old(used)) && old(used) <= used && old(next) <= next
      {
        var _ := Register(requests[i]);
      }
    }

    /** What the loop does when epoll_wait has returned: no event and no removal misses its
        continuation, and each continuation is resumed at most once. */
    method Process(reported: seq<Number>, during: seq<seq<int>>, reaction: Number -> seq<int>)
        returns (resumed: seq<Request>, thrown: seq<Number>)
      requires Valid() && events == reported && |during| == |reported|
      modifies this
      ensures Valid() && events == [] && pendingRemove == {}
      ensures |resumed| == |reported| && forall i :: 0 <= i < |reported| ==>
                reported[i] in old(awaiting) && resumed[i] == Request(reported[i], old(awaiting)[reported[i]])
      ensures Distinct(thrown) && forall n :: n in thrown <==> n in old(pendingRemove)
      ensures removed == old(removed) + old(pendingRemove) && registered == old(registered)
      ensures WaitOn(old(awaiting), awaiting, Elements(reported) + old(pendingRemove), old(used))
      ensures AskAgain(Elements(reported) - old(pendingRemove), awaiting, old(next))
    {
      hide Matched, WaitOn, AskAgain;
      Fetch();
      events := [];
      ghost var all, known := awaiting, used;
      resumed := SendAll(reported, during);
      ghost var sent, later := awaiting, used;
      Fetch();
      thrown := RemovePending(reaction);
      WaitOnThen(all, sent, awaiting, Elements(reported), old(pendingRemove), known, later);
      AskOn(Elements(reported), sent, awaiting, old(next), old(pendingRemove), later);
    }
  }
}
