/** Which calls on a child's pid are safe: `ChildProcess.borrow`, kill, waitid and read_siginfo. */
module Pids {
  import opened Prelude
  /** What a siginfo buffer says. */
  datatype Info = NoEvent | Alive | Died

  datatype Kind = Kill | Waitid

  /** A call in progress; `ran` is what waitid wrote once it has run. */
  datatype Call = Call(kind: Kind, ran: Option<Info>)

  datatype State = State(
    dead: bool,                   // death_state is set
    unread: Option<Info>,         // unread_siginfo
    inUse: Option<Call>,          // in_use, and the call that set it
    readers: map<int, Info>,      // coroutines in read_siginfo, with the buffer they read
    reaped: bool)                 // the kernel may have given the pid to another process

  datatype Step =
    | Begin(kind: Kind)
    | KillRuns
    | WaitidRuns(info: Info)
    | CallFails                   // the call raises, and has not run
    | Lose                        // the call has run, but its result is lost with the connection
    | Respond
    | BeginRead(r: int)
    | EndRead(r: int)

  /** The checks of borrow, and what the kernel can do. */
  predicate Can(s: State, step: Step) {
    match step
    case Begin(_) => !s.dead && s.unread.None? && s.inUse.None?
    case KillRuns => s.inUse.Some? && s.inUse.value == Call(Kill, None)
    case WaitidRuns(_) => s.inUse.Some? && s.inUse.value == Call(Waitid, None)
    case CallFails => s.inUse.Some? && s.inUse.value.ran.None?
    case Lose => s.inUse.Some? && s.inUse.value.ran.Some?
    case Respond => s.inUse.Some? && s.inUse.value.ran.Some?
    case BeginRead(r) => s.unread.Some? && r !in s.readers
    case EndRead(r) => r in s.readers
  }

  function Apply(s: State, step: Step): State
    requires Can(s, step)
  {
    match step
    case Begin(kind) => s.(inUse := Some(Call(kind, None)))
    case KillRuns => s.(inUse := Some(Call(Kill, Some(NoEvent))))
    case WaitidRuns(info) => s.(inUse := Some(Call(Waitid, Some(info))), reaped := s.reaped || info.Died?)
    case CallFails => s.(inUse := None)
    case Lose => s.(inUse := None)
    case Respond => s.(inUse := None, unread := if s.inUse.value.kind.Waitid? then s.inUse.value.ran else s.unread)
    case BeginRead(r) => s.(readers := s.readers[r := s.unread.value])
    case EndRead(r) => s.(readers := s.readers - {r}, unread := None, dead := s.dead || s.readers[r].Died?)
  }

  /** One siginfo reader at a time, except for news of a death; and that news is not lost. */
  predicate Guarded(s: State, step: Step) {
    && (step.BeginRead? ==> s.readers == map[] || s.unread == Some(Died))
    && (step.Lose? ==> s.inUse != Some(Call(Waitid, Some(Died))))
  }

  ghost predicate Inv(s: State) {
    && (s.reaped ==> s.dead || s.unread == Some(Died) || s.inUse == Some(Call(Waitid, Some(Died))))
    && (s.inUse.Some? ==> !s.dead && s.unread.None?) && (s.dead ==> s.unread.None?)
    && (s.inUse.Some? && s.inUse.value.ran.None? ==> !s.reaped)
    && (s.inUse.Some? && s.inUse.value.kind.Kill? ==> !s.reaped)
    && (forall r :: r in s.readers ==> s.unread == Some(s.readers[r]) || (s.dead && s.readers[r].Died?))
    && (forall r, q :: r in s.readers && q in s.readers && r != q ==> s.readers[r].Died?)
  }

  lemma {:induction false} StepKeeps(s: State, step: Step)
    requires Inv(s) && Can(s, step)
    ensures Guarded(s, step) ==> Inv(Apply(s, step))
  {
  }

  const Start := State(false, None, None, map[], false)

  ghost predicate IsRun(states: seq<State>, steps: seq<Step>) {
    && |states| == |steps| + 1 && states[0] == Start
    && forall i :: 0 <= i < |steps| ==>
         Can(states[i], steps[i]) && Guarded(states[i], steps[i]) && states[i + 1] == Apply(states[i], steps[i])
  }

  lemma {:induction false} RunKeeps(states: seq<State>, steps: seq<Step>, i: nat)
    requires IsRun(states, steps) && i < |states|
    ensures Inv(states[i])
  {
    if i > 0 {
      RunKeeps(states, steps, i - 1);
      assert Can(states[i - 1], steps[i - 1]);
      StepKeeps(states[i - 1], steps[i - 1]);
    }
  }

  /** No kill and no waitid runs, or is even begun, once a waitid has reaped the child. */
  lemma {:induction false} PidIsSafe(states: seq<State>, steps: seq<Step>, i: nat, j: nat)
    requires IsRun(states, steps) && i <= j < |steps| && steps[i] == WaitidRuns(Died)
    ensures j > i ==> !steps[j].Begin? && !steps[j].KillRuns? && !steps[j].WaitidRuns?
    ensures states[j + 1].reaped
  {
    RunKeeps(states, steps, j);
    assert Can(states[j], steps[j]) && states[j + 1] == Apply(states[j], steps[j]);
    if j > i { PidIsSafe(states, steps, i, j - 1); }
  }

  // ---------------------------------------------------------------- exactly then

  /** A call is under way on a pid that may be another process's. */
  predicate Stray(s: State) {
    s.reaped && s.inUse.Some? && s.inUse.value.ran.None?
  }

  /** The state a list of guarded steps leads to, if each can be taken. */
  function After(s: State, steps: seq<Step>): Option<State>
    decreases |steps|
  {
    if steps == [] then Some(s)
    else if Can(s, steps[0]) && Guarded(s, steps[0]) then After(Apply(s, steps[0]), steps[1..])
    else None
  }

  ghost predicate Reaches(s: State, s': State) {
    exists steps :: After(s, steps) == Some(s')
  }

  lemma {:induction false} Then(s: State, step: Step, s': State)
    requires Can(s, step) && Guarded(s, step) && Reaches(Apply(s, step), s')
    ensures Reaches(s, s')
  {
    var more :| After(Apply(s, step), more) == Some(s');
    assert ([step] + more)[1..] == more;
    assert After(s, [step] + more) == Some(s');
  }

  lemma {:induction false} AfterKeeps(s: State, steps: seq<Step>)
    requires Inv(s) && After(s, steps).Some?
    ensures Inv(After(s, steps).value)
    decreases |steps|
  {
    if steps != [] {
      StepKeeps(s, steps[0]);
      AfterKeeps(Apply(s, steps[0]), steps[1..]);
    }
  }

  /** A reaped child that nobody knows to be dead can be killed. */
  lemma {:induction false} Forgotten(s: State) returns (bad: State)
    requires s.reaped && Can(s, Begin(Kill))
    ensures Reaches(s, bad) && Stray(bad)
  {
    bad := Apply(s, Begin(Kill));
    assert After(bad, []) == Some(bad);
    Then(s, Begin(Kill), bad);
  }

  /** With two readers of one siginfo, the second forgets what a waitid in between reported. */
  lemma {:induction false} TwoReadersLoseADeath(s: State, a: int, b: int) returns (bad: State)
    requires Inv(s) && a in s.readers && s.unread.Some? && s.unread != Some(Died) && Can(s, BeginRead(b))
    ensures Reaches(Apply(s, BeginRead(b)), bad) && Stray(bad)
  {
    var two := Apply(s, BeginRead(b));
    var one := Apply(two, EndRead(a));
    var begun := Apply(one, Begin(Waitid));
    var ran := Apply(begun, WaitidRuns(Died));
    var told := Apply(ran, Respond);
    var lost := Apply(told, EndRead(b));
    bad := Forgotten(lost);
    hide Reaches;
    Then(told, EndRead(b), bad);
    Then(ran, Respond, bad);
    Then(begun, WaitidRuns(Died), bad);
    Then(one, Begin(Waitid), bad);
    Then(two, EndRead(a), bad);
  }

  /** If the result of the waitid that reaped the child is lost, nobody knows. */
  lemma {:induction false} LostDeathIsForgotten(s: State) returns (bad: State)
    requires Inv(s) && s.inUse == Some(Call(Waitid, Some(Died))) && s.reaped
    ensures Reaches(Apply(s, Lose), bad) && Stray(bad)
  {
    bad := Forgotten(Apply(s, Lose));
  }

  /** The call that reported a death has reaped the child. */
  ghost predicate DeathsReap(s: State) {
    s.inUse == Some(Call(Waitid, Some(Died))) ==> s.reaped
  }

  lemma {:induction false} RunReaps(states: seq<State>, steps: seq<Step>, i: nat)
    requires IsRun(states, steps) && i < |states|
    ensures DeathsReap(states[i])
  {
    if i > 0 {
      RunReaps(states, steps, i - 1);
      assert states[i] == Apply(states[i - 1], steps[i - 1]);
    }
  }

  /** In a run guarded so far, a step is guarded if and only if no continuation by guarded steps
      ever has a call under way on a reaped pid. */
  lemma {:induction false} GuardIsExact(states: seq<State>, steps: seq<Step>, i: nat, step: Step)
    requires IsRun(states, steps) && i < |states| && Can(states[i], step)
    ensures Guarded(states[i], step) <==> forall s :: Reaches(Apply(states[i], step), s) ==> !Stray(s)
  {
    var s := states[i];
    RunKeeps(states, steps, i);
    RunReaps(states, steps, i);
    if Guarded(s, step) {
      StepKeeps(s, step);
      forall s' | Reaches(Apply(s, step), s') ensures !Stray(s') {
        var more :| After(Apply(s, step), more) == Some(s');
        AfterKeeps(Apply(s, step), more);
      }
    } else if step.Lose? {
      var bad := LostDeathIsForgotten(s);
    } else {
      var a := Someone(s.readers);
      var bad := TwoReadersLoseADeath(s, a, step.r);
    }
  }

  lemma {:induction false} Someone<K, V>(m: map<K, V>) returns (k: K)
    requires m != map[]
    ensures k in m
  {
    k :| k in m;
  }

  // ---------------------------------------------------------------- the object

  class ChildProcess {
    var deathState: bool
    var unreadSiginfo: Option<Info>
    var inUse: bool
    ghost var call: Option<Call>
    ghost var readers: map<int, Info>
    ghost var reaped: bool

    ghost function View(): State
      reads this
    {
      State(deathState, unreadSiginfo, call, readers, reaped)
    }

    ghost predicate Valid()
      reads this
    {
      Inv(View()) && (inUse <==> call.Some?)
    }

    constructor ()
      ensures Valid() && View() == Start
    {
      deathState, unreadSiginfo, inUse := false, None, false;
      call, readers, reaped := None, map[], false;
    }

    /** Entering `borrow`: refused exactly when the pid may not be used, and never once it is reaped. */
    method Borrow(kind: Kind) returns (ok: bool)
      requires Valid()
      modifies this
      ensures Valid() && (ok <==> Can(old(View()), Begin(kind)))
      ensures View() == if ok then Apply(old(View()), Begin(kind)) else old(View())
      ensures ok ==> !reaped
      ensures ok <==> !old(deathState) && old(unreadSiginfo).None? && !old(inUse)
      ensures deathState == old(deathState) && unreadSiginfo == old(unreadSiginfo) && inUse == (old(inUse) || ok)
    {
      StepHolds(View(), Begin(kind));
      if deathState || unreadSiginfo.Some? || inUse { return false; }
      inUse, call, ok := true, Some(Call(kind, None)), true;
    }

    /** What the kernel does for the borrowed call. */
    ghost method Runs(info: Info)
      requires Valid() && call.Some? && call.value.ran.None?
      modifies this`call, this`reaped
      ensures Valid()
      ensures View() == Apply(old(View()), if old(call.value.kind.Kill?) then KillRuns else WaitidRuns(info))
      ensures !old(reaped)
    {
      StepHolds(View(), if call.value.kind.Kill? then KillRuns else WaitidRuns(info));
      if call.value.kind.Waitid? { reaped := reaped || info.Died?; }
      call := Some(call.value.(ran := Some(if call.value.kind.Kill? then NoEvent else info)));
    }

    /** Leaving `borrow` when the call has returned; after waitid its buffer is unread. */
    method Release(isWait: bool, infop: Info)
      requires Valid() && call.Some? && call.value.ran.Some?
      requires isWait == call.value.kind.Waitid? && (isWait ==> call.value.ran == Some(infop))
      modifies this
      ensures Valid() && View() == Apply(old(View()), Respond)
      ensures !inUse && deathState == old(deathState)
      ensures unreadSiginfo == if isWait then Some(infop) else old(unreadSiginfo)
    {
      StepHolds(View(), Respond);
      inUse, call := false, None;
      if isWait { unreadSiginfo := Some(infop); }
    }

    /** Leaving `borrow` because the call raised; `unread_siginfo` is not touched. */
    method ReleaseRaised()
      requires Valid() && call.Some?
      modifies this
      ensures View() == Apply(old(View()), if old(call.value.ran.Some?) then Lose else CallFails) && !inUse
      ensures deathState == old(deathState) && unreadSiginfo == old(unreadSiginfo)
      ensures old(call) != Some(Call(Waitid, Some(Died))) ==> Valid()
    {
      StepKeeps(View(), if call.value.ran.Some? then Lose else CallFails);
      inUse, call := false, None;
    }

    /** `parse_waitid_siginfo` of the buffer that reader `r` has read. */
    method ParseSiginfo(r: int, siginfo: Info) returns (state: Option<Info>)
      requires Valid() && r in readers && readers[r] == siginfo
      modifies this
      ensures Valid() && View() == Apply(old(View()), EndRead(r))
      ensures state == if siginfo.NoEvent? then None else Some(siginfo)
      ensures unreadSiginfo == None && deathState == (old(deathState) || siginfo.Died?) && inUse == old(inUse)
    {
      StepHolds(View(), EndRead(r));
      unreadSiginfo, readers := None, readers - {r};
      if siginfo.NoEvent? { return None; }
      if siginfo.Died? { deathState := true; }
      state := Some(siginfo);
    }
  }

  lemma {:induction false} StepHolds(s: State, step: Step)
    requires Inv(s) && !step.BeginRead? && !step.Lose?
    ensures Can(s, step) ==> Inv(Apply(s, step))
  {
    if Can(s, step) { StepKeeps(s, step); }
  }
}
