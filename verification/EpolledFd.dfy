/** `EpolledFileDescriptor`: its counters, and the lists of coroutines parked per flag. The object
    carries the state of `EpollStatus` that it is part of, and every method takes the steps of it. */
module EpolledFd {
  import opened Prelude
  import opened EpollStatus

  /** A continuation parked by wait_for. */
  datatype Waiter = Waiter(flags: set<Flag>, co: int)

  /** list.remove: without the first occurrence. */
  function Remove(s: seq<Waiter>, w: Waiter): seq<Waiter> {
    if s == [] then [] else if s[0] == w then s[1..] else [s[0]] + Remove(s[1..], w)
  }

  lemma {:induction false} AddFront(w: Waiter, s: seq<Waiter>)
    requires Distinct(s) && w !in s
    ensures Distinct([w] + s)
  {
    var t := [w] + s;
    forall i, j | 0 <= i < j < |t| ensures t[i] != t[j] {
      assert t[j] == s[j - 1] && t[j] in s;
    }
  }

  lemma {:induction false} RemoveIs(s: seq<Waiter>, w: Waiter)
    requires Distinct(s)
    ensures Distinct(Remove(s, w)) && forall v :: v in Remove(s, w) <==> v in s && v != w
  {
    if s != [] && s[0] != w {
      RemoveIs(s[1..], w);
      assert s == [s[0]] + s[1..];
      assert s[0] !in s[1..];
      AddFront(s[0], Remove(s[1..], w));
    } else if s != [] {
      assert s == [w] + s[1..];
    }
  }

  lemma {:induction false} JoinDistinct(a: seq<Waiter>, b: seq<Waiter>)
    requires Distinct(a) && Distinct(b) && forall w :: w in a ==> w !in b
    ensures Distinct(a + b)
  {
    var t := a + b;
    forall i, j | 0 <= i < j < |t| ensures t[i] != t[j] {
      if i < |a| <= j { assert t[i] in a && t[j] in b; }
    }
  }

  /** A waiter is once in the list of each of its flags, and in no other. */
  ghost predicate Lists(waiters: map<Flag, seq<Waiter>>, waiting: set<Waiter>) {
    forall f :: f in waiters && Distinct(waiters[f]) && forall w :: w in waiters[f] <==> w in waiting && f in w.flags
  }

  const NOBODY: map<Flag, seq<Waiter>> := map[IN := [], OUT := [], RDHUP := [], PRI := [], ERR := [], HUP := []]

  lemma {:induction false} NobodyWaits()
    ensures Lists(NOBODY, {})
  {
    forall f ensures f in NOBODY && NOBODY[f] == [] {
      match f {
        case IN => case OUT => case RDHUP => case PRI => case ERR => case HUP =>
      }
    }
  }

  /** Some lists have `w` added or taken out, the others are as before. */
  ghost predicate Edited(before: map<Flag, seq<Waiter>>, waiters: map<Flag, seq<Waiter>>, w: Waiter, flags: set<Flag>,
      add: bool) {
    forall f :: f in before && f in waiters &&
      waiters[f] == if f !in flags then before[f] else if add then before[f] + [w] else Remove(before[f], w)
  }

  lemma {:induction false} DroppedEverywhere(before: map<Flag, seq<Waiter>>, waiters: map<Flag, seq<Waiter>>,
      w: Waiter, waiting: set<Waiter>)
    requires Lists(before, waiting) && Edited(before, waiters, w, w.flags, false)
    ensures Lists(waiters, waiting - {w})
  {
    forall f ensures f in waiters && Distinct(waiters[f]) && forall v :: v in waiters[f] <==>
         v in waiting - {w} && f in v.flags {
      RemoveIs(before[f], w);
    }
  }

  lemma {:induction false} AddedEverywhere(before: map<Flag, seq<Waiter>>, waiters: map<Flag, seq<Waiter>>, w: Waiter,
      waiting: set<Waiter>)
    requires Lists(before, waiting) && Edited(before, waiters, w, w.flags, true) && w !in waiting
    ensures Lists(waiters, waiting + {w})
  {
    forall f ensures f in waiters && Distinct(waiters[f]) && forall v :: v in waiters[f] <==>
         v in waiting + {w} && f in v.flags {
      assert w !in before[f];
      JoinDistinct(before[f], [w]);
    }
  }

  /** Continuations below `next` are in use, each by one waiter. */
  ghost predicate Numbered(queue: seq<Waiter>, waiting: set<Waiter>, next: int) {
    && Distinct(queue) && (forall w :: w in queue ==> w !in waiting && w.co < next)
        && (forall w :: w in waiting ==> w.co < next)
    && (forall v, w :: (v in queue || v in waiting) && (w in queue || w in waiting) && v.co == w.co ==> v == w)
  }

  /** Who is parked: those in the queue, and those in the lists that event `ev` leaves there. */
  ghost predicate SameParked(parked: map<int, set<Flag>>, queue: seq<Waiter>, waiting: set<Waiter>, ev: set<Flag>) {
    && (forall w :: w in queue || (w in waiting && w.flags * ev == {}) ==> w.co in parked && parked[w.co] == w.flags)
    && (forall co :: co in parked ==>
          var w := Waiter(parked[co], co); w in queue || (w in waiting && w.flags * ev == {}))
  }

  ghost predicate SameCounts(s: State, total: Count, consumed: Count) {
    forall f :: s.total(f) == total(f) && s.consumed(f) == consumed(f)
  }

  class EpolledFileDescriptor {
    var mask: set<Flag>
    var total: Count
    var consumed: Count
    var queue: seq<Waiter>
    var waiters: map<Flag, seq<Waiter>>
    var next: int                            // continuations are numbered
    ghost var waiting: set<Waiter>           // those in the lists
    ghost var model: State

    /** The object while event `ev` is being dispatched; {} when none is. */
    ghost predicate ValidDuring(ev: set<Flag>)
      reads this
    {
      && Lists(waiters, waiting) && Numbered(queue, waiting, next)
      && model.mask == mask && SameCounts(model, total, consumed) && SameParked(model.parked, queue, waiting, ev)
      && (forall co :: co in model.calls ==> co < next) && Inv(model)
    }

    ghost predicate Valid()
      reads this
    {
      ValidDuring({})
    }

    constructor (ghost registered: State)
      requires Init(registered) && Inv(registered)
      ensures Valid() && model == registered
    {
      mask, total, consumed := {IN, OUT}, _ => 0, _ => 0;
      queue, waiters, waiting, next, model := [], NOBODY, {}, 0, registered;
      new;
      NobodyWaits();
    }

    /** `get_current_events`, as a call begins: the events so far, to be consumed when the call fails. */
    method BeginCall(ghost co: int, flags: set<Flag>, ghost onError: set<Flag>) returns (snapshot: Count)
      requires Valid() && Can(model, Begin(co, flags, onError)) && co < next
      modifies this`model
      ensures Valid() && model == EpollStatus.Apply(old(model), Begin(co, flags, onError))
      ensures (forall f :: snapshot(f) == total(f)) && co in model.calls
      ensures forall f :: model.calls[co].snapshot(f) == snapshot(f)
    {
      StepKeeps(model, Begin(co, flags, onError));
      hide Inv, Lists;
      snapshot, model := total, EpollStatus.Apply(model, Begin(co, flags, onError));
    }

    /** Kernel steps, and calls that run, leave the object as it is. */
    ghost method Elsewhere(step: Step)
      requires Valid() && Can(model, step) && (step.Ready? || step.Unready? || step.EpollWait? || step.Run?)
      modifies this`model
      ensures Valid() && model == EpollStatus.Apply(old(model), step)
    {
      StepKeeps(model, step);
      hide Inv;
      model := EpollStatus.Apply(model, step);
    }

    /** Neither the mask nor an unconsumed event has one of the flags. */
    method NobodySays(flags: set<Flag>) returns (parks: bool)
      ensures parks <==> mask * flags == {} && forall f :: f in flags ==> total(f) <= consumed(f)
    {
      parks := mask * flags == {};
      var todo := flags;
      while todo != {}
        invariant todo <= flags
        invariant parks <==> mask * flags == {} && forall f :: f in flags && f !in todo ==> total(f) <= consumed(f)
        decreases todo
      {
        var f :| f in todo;
        if total(f) > consumed(f) { parks := false; }
        todo := todo - {f};
      }
    }

    /** `wait_for`: parks exactly when neither the mask nor an unconsumed event says that the file
        may be ready. */
    method WaitFor(flags: set<Flag>, ghost ev: set<Flag>) returns (parks: bool)
      requires ValidDuring(ev)
      modifies this`queue, this`next, this`model
      ensures ValidDuring(ev) && next == old(next) + 1
      ensures parks <==> mask * flags == {} && forall f :: f in flags ==> total(f) <= consumed(f)
      ensures queue == if parks then old(queue) + [Waiter(flags, old(next))] else old(queue)
      ensures Reaches(old(model), model) && model.inflight == old(model).inflight
    {
      parks := NobodySays(flags);
      hide Inv, Reaches, Lists;
      ghost var step := EpollStatus.WaitFor(next, flags);
      assert Can(model, step);
      StepKeeps(model, step);
      Here(EpollStatus.Apply(model, step));
      Then(model, step, EpollStatus.Apply(model, step));
      if parks { queue := queue + [Waiter(flags, next)]; }
      model, next := EpollStatus.Apply(model, step), next + 1;
    }

    /** The end of a call: nothing for a success, `consume` and `negedge` or `posedge` for a failure. After
        EAGAIN, wait_for parks unless an unconsumed event came after the call began. */
    method EndCall(ghost co: int, flags: set<Flag>, onError: set<Flag>, snapshot: Count, answer: Answer)
      requires Valid() && co in model.calls && model.calls[co] == Call(flags, onError, snapshot, answer)
               && !answer.Unanswered?
      requires Regular(model, Handle(co))
      modifies this`mask, this`consumed, this`model
      ensures Valid() && model == EpollStatus.Apply(old(model), Handle(co))
      ensures mask == match answer
                      case Eagain => old(mask) - flags
                      case Failed => old(mask) + onError
                      case _ => old(mask)
      ensures forall f :: old(consumed)(f) <= consumed(f) <= total(f)
      ensures forall f :: f in flags && !answer.Success? ==> snapshot(f) <= consumed(f)
      ensures forall f :: consumed(f) == old(consumed)(f)
                          || (f in flags && !answer.Success? && consumed(f) == snapshot(f))
      ensures answer.Eagain? ==>
                ((forall f :: f in flags ==> f !in mask && total(f) <= consumed(f)) <==>
                  forall f :: f in flags ==> total(f) == snapshot(f) || total(f) == old(consumed)(f))
    {
      StepKeeps(model, Handle(co));
      Counted(model, total, consumed, co);
      hide Inv, Lists;
      if !answer.Success? {
        consumed := Consume(consumed, flags, snapshot);
        mask := if answer.Eagain? then mask - flags else mask + onError;
      }
      model := EpollStatus.Apply(model, Handle(co));
    }

    /** Takes a waiter off the lists of all its flags. */
    method Drop(w: Waiter)
      requires Lists(waiters, waiting)
      modifies this`waiters, this`waiting
      ensures Lists(waiters, waiting) && waiting == old(waiting) - {w}
    {
      ghost var before := waiters;
      var todo := w.flags;
      assert Edited(before, waiters, w, {}, false) && w.flags - todo == {};
      hide Lists;
      while todo != {}
        invariant todo <= w.flags && waiting == old(waiting) && Edited(before, waiters, w, w.flags - todo, false)
        decreases todo
      {
        var f :| f in todo;
        waiters, todo := waiters[f := Remove(waiters[f], w)], todo - {f};
      }
      assert w.flags - todo == w.flags;
      DroppedEverywhere(before, waiters, w, waiting);
      waiting := waiting - {w};
    }

    /** Registers a waiter with the lists of all its flags. */
    method Register(w: Waiter)
      requires Lists(waiters, waiting) && w !in waiting
      modifies this`waiters, this`waiting
      ensures Lists(waiters, waiting) && waiting == old(waiting) + {w}
    {
      ghost var before := waiters;
      var todo := w.flags;
      assert Edited(before, waiters, w, {}, true) && w.flags - todo == {};
      hide Lists;
      while todo != {}
        invariant todo <= w.flags && waiting == old(waiting) && Edited(before, waiters, w, w.flags - todo, true)
        decreases todo
      {
        var f :| f in todo;
        waiters, todo := waiters[f := waiters[f] + [w]], todo - {f};
      }
      assert w.flags - todo == w.flags;
      AddedEverywhere(before, waiters, w, waiting);
      waiting := waiting + {w};
    }

    /** `fetch_any`: parked coroutines enter the lists. */
    method Fetch()
      requires Lists(waiters, waiting) && Numbered(queue, waiting, next)
      modifies this`waiters, this`waiting, this`queue
      ensures Lists(waiters, waiting) && Numbered(queue, waiting, next) && queue == []
      ensures forall w :: w in waiting <==> w in old(queue) || w in old(waiting)
    {
      var fetched := queue;
      queue := [];
      hide Lists;
      for i := 0 to |fetched|
        invariant Lists(waiters, waiting) && queue == []
        invariant forall w :: w in waiting <==> w in fetched[..i] || w in old(waiting)
      {
        assert fetched[i] !in fetched[..i] && fetched[i] in fetched;
        Register(fetched[i]);
        assert fetched[..i + 1] == fetched[..i] + [fetched[i]];
      }
      assert fetched[..|fetched|] == fetched;
    }

    /** What a resumed coroutine waits for before control returns. */
    method React(waits: seq<set<Flag>>, ghost ev: set<Flag>)
      requires ValidDuring(ev)
      modifies this`queue, this`next, this`model
      ensures ValidDuring(ev) && next >= old(next) && IsPrefix(old(queue), queue)
      ensures forall w :: w in queue ==> w in old(queue) || w.co >= old(next)
      ensures Reaches(old(model), model)
    {
      Here(model);
      hide Reaches, Inv, Lists, Numbered, SameParked;
      for i := 0 to |waits|
        invariant ValidDuring(ev) && next >= old(next) && IsPrefix(old(queue), queue) && Reaches(old(model), model)
        invariant forall w :: w in queue ==> w in old(queue) || w.co >= old(next)
      {
        ghost var m := model;
        var _ := WaitFor(waits[i], ev);
        Onward(old(model), m, model);
      }
    }

    /** Resumes everybody in the list of one flag of the event. */
    method ResumeFor(f: Flag, ghost ev: set<Flag>, reaction: Waiter -> seq<set<Flag>>) returns (resumed: seq<Waiter>)
      requires ValidDuring(ev) && f in ev
      modifies this`waiters, this`waiting, this`queue, this`next, this`model
      ensures ValidDuring(ev) && Distinct(resumed) && Reaches(old(model), model) && next >= old(next)
      ensures forall w :: w in resumed <==> w in old(waiting) && f in w.flags
      ensures forall w :: w in waiting <==> w in old(waiting) && f !in w.flags
      ensures forall w :: w in queue ==> w in old(queue) || w.co >= old(next)
    {
      var todo := waiters[f];
      resumed := [];
      Here(model);
      assert Distinct(todo) && forall w :: w in todo <==> w in waiting && f in w.flags;
      hide Reaches, Inv, Lists;
      for i := 0 to |todo|
        invariant ValidDuring(ev) && resumed == todo[..i] && Reaches(old(model), model) && next >= old(next)
        invariant forall w :: w in waiting <==> w in old(waiting) && w !in todo[..i]
        invariant forall w :: w in queue ==> w in old(queue) || w.co >= old(next)
      {
        ghost var m := model;
        assert f in todo[i].flags * ev;
        ResumeOne(todo[i], ev, reaction(todo[i]));
        Onward(old(model), m, model);
        resumed := resumed + [todo[i]];
        assert todo[..i + 1] == todo[..i] + [todo[i]];
      }
      assert todo[..|todo|] == todo;
    }

    /** Takes one waiter off all lists and resumes it. */
    method ResumeOne(w: Waiter, ghost ev: set<Flag>, waits: seq<set<Flag>>)
      requires ValidDuring(ev) && w.flags * ev != {}
      modifies this`waiters, this`waiting, this`queue, this`next, this`model
      ensures ValidDuring(ev) && waiting == old(waiting) - {w} && Reaches(old(model), model) && next >= old(next)
      ensures forall v :: v in queue ==> v in old(queue) || v.co >= old(next)
    {
      hide Reaches, Inv, Lists;
      Drop(w);
      React(waits, ev);
    }

    /** One turn of the loop, for one event: everybody parked on one of its flags is resumed, once,
        and nobody else. A resumed coroutine that parks again joins the queue, not the lists. */
    method Dispatch(ev: set<Flag>, reaction: Waiter -> seq<set<Flag>>) returns (resumed: seq<Waiter>)
      requires Valid() && model.inflight != [] && model.inflight[0] == ev
      modifies this
      ensures Valid() && Reaches(EpollStatus.Apply(old(model), EpollStatus.Dispatch), model)
      ensures mask == old(mask) + ev && consumed == old(consumed)
      ensures forall f :: total(f) == old(total)(f) + if f in ev then 1 else 0
      ensures Distinct(resumed)
      ensures forall w :: w in resumed <==> (w in old(queue) || w in old(waiting)) && w.flags * ev != {}
      ensures forall w :: w in waiting <==> (w in old(queue) || w in old(waiting)) && w.flags * ev == {}
      ensures forall w :: w in queue ==> w.co >= old(next)
    {
      StartDispatch(ev);
      ghost var before, began := waiting, model;
      Here(model);
      hide Reaches, Lists, Inv, Numbered, SameParked, SameCounts;
      resumed := [];
      var todo := ev;
      while todo != {}
        invariant todo <= ev && ValidDuring(ev) && Distinct(resumed) && Reaches(began, model) && next >= old(next)
        invariant forall w :: w in resumed <==> w in before && w.flags * (ev - todo) != {}
        invariant forall w :: w in waiting <==> w in before && w.flags * (ev - todo) == {}
        invariant forall w :: w in queue ==> w.co >= old(next)
        modifies this`waiters, this`waiting, this`queue, this`next, this`model
        decreases todo
      {
        var f :| f in todo;
        ghost var m := model;
        var more := ResumeFor(f, ev, reaction);
        Onward(began, m, model);
        JoinDistinct(resumed, more);
        forall w: Waiter ensures w.flags * (ev - (todo - {f})) != {} <==> f in w.flags || w.flags * (ev - todo) != {} {
          OneMoreFlag(w.flags, ev, todo, f);
        }
        resumed, todo := resumed + more, todo - {f};
      }
      assert ev - todo == ev;
      NobodyLeft(model.parked, queue, waiting, ev);
    }

    /** The event is counted, and the queue fetched. */
    method StartDispatch(ev: set<Flag>)
      requires Valid() && model.inflight != [] && model.inflight[0] == ev
      modifies this
      ensures ValidDuring(ev) && queue == [] && next == old(next)
              && model == EpollStatus.Apply(old(model), EpollStatus.Dispatch)
      ensures mask == old(mask) + ev && consumed == old(consumed)
      ensures forall f :: total(f) == old(total)(f) + if f in ev then 1 else 0
      ensures forall w :: w in waiting <==> w in old(queue) || w in old(waiting)
    {
      StepKeeps(model, EpollStatus.Dispatch);
      hide Inv, Lists;
      total, mask := Bump(total, ev), mask + ev;
      Fetch();
      model := EpollStatus.Apply(model, EpollStatus.Dispatch);
      DispatchedParked(old(model).parked, old(queue), old(waiting), waiting, ev);
    }
  }

  /** Nothing is consumed or noted down before it has happened. */
  lemma {:induction false} Counted(s: State, total: Count, consumed: Count, co: int)
    requires Inv(s) && SameCounts(s, total, consumed) && co in s.calls
    ensures forall f :: consumed(f) <= total(f) && s.calls[co].snapshot(f) <= total(f)
  {
    assert forall f :: s.total(f) == total(f);
  }

  /** What the event leaves parked is in the lists, if the queue has been fetched. */
  lemma {:induction false} DispatchedParked(parked: map<int, set<Flag>>, queue: seq<Waiter>, was: set<Waiter>,
      waiting: set<Waiter>, ev: set<Flag>)
    requires SameParked(parked, queue, was, {}) && forall w :: w in waiting <==> w in queue || w in was
    ensures SameParked(StillParked(parked, ev), [], waiting, ev)
  {
    forall w: Waiter ensures w.flags * {} == {} {}
  }

  lemma {:induction false} NobodyLeft(parked: map<int, set<Flag>>, queue: seq<Waiter>, waiting: set<Waiter>,
      ev: set<Flag>)
    requires SameParked(parked, queue, waiting, ev) && forall w :: w in waiting ==> w.flags * ev == {}
    ensures SameParked(parked, queue, waiting, {})
  {
    forall w: Waiter ensures w.flags * {} == {} {}
  }

  lemma {:induction false} OneMoreFlag(flags: set<Flag>, ev: set<Flag>, todo: set<Flag>, f: Flag)
    requires f in todo && todo <= ev
    ensures flags * (ev - (todo - {f})) != {} <==> f in flags || flags * (ev - todo) != {}
  {
    if f in flags { assert f in flags * (ev - (todo - {f})); }
    if g :| g in flags * (ev - todo) { assert g in flags * (ev - (todo - {f})); }
    if g :| g in flags * (ev - (todo - {f})) && g != f { assert g in flags * (ev - todo); }
  }
}
