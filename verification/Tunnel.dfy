/**
 * The SSH tunnel's lifecycle: the ssh child, the goroutine that waits for it, the readiness loop of
 * TunnelUp and any number of Down calls, interleaved step by step. Clocks, the context and the dial are
 * answers carried by the steps.
 */
module Tunnel {
  import opened Prelude

  datatype Child = Running | Exited | Reaped

  /** The watcher: in cmd.Wait, then with waitErr recorded, then with waitDone closed. */
  datatype Watcher = Waiting | Recorded | Closed

  /** TunnelUp after a successful start. */
  datatype MainPc = Head | CheckContext | Peek | Dial | Grace | Final | TearingDown | Ready | Failed

  datatype DownPc = AtLock | Held | AtKill | AtReceive | Returned

  /**
   * `downs` are the Down calls, number 0 being TunnelUp's own. `owner` is the call that set the down
   * flag; `openAtReturn` and `childAtReturn` are what the last select of a successful TunnelUp met.
   */
  datatype State = State(
    child: Child, watcher: Watcher, main: MainPc, dialled: bool,
    mu: Option<nat>, cmd: bool, down: bool, downs: map<nat, DownPc>,
    owner: Option<nat>, waits: nat, kills: nat, openAtReturn: bool, childAtReturn: Child)

  datatype Step =
    | ChildExit
    | WaitReturns
    | CloseDone
    | TestDeadline(expired: bool)
    | TestContext(cancelled: bool)
    | PeekDone
    | TryDial(ok: bool)
    | GraceSelect(timer: bool)
    | FinalSelect
    | ReturnError
    | BeginDown(d: nat)
    | Lock(d: nat)
    | Section(d: nat)
    | Kill(d: nat)
    | Receive(d: nat)

  predicate At(s: State, d: nat, pc: DownPc) { d in s.downs && s.downs[d] == pc }

  predicate Enabled(s: State, step: Step) {
    match step
    case ChildExit => s.child.Running?
    case WaitReturns => s.watcher.Waiting? && s.child.Exited?
    case CloseDone => s.watcher.Recorded?
    case TestDeadline(_) => s.main.Head?
    case TestContext(_) => s.main.CheckContext?
    case PeekDone => s.main.Peek?
    case TryDial(_) => s.main.Dial?
    case GraceSelect(timer) => s.main.Grace? && (timer || s.watcher.Closed?)
    case FinalSelect => s.main.Final?
    case ReturnError => s.main.TearingDown? && At(s, 0, Returned)
    case BeginDown(d) => s.main.Ready? && d != 0 && d !in s.downs
    case Lock(d) => At(s, d, AtLock) && s.mu.None?
    case Section(d) => At(s, d, Held)
    case Kill(d) => At(s, d, AtKill)
    case Receive(d) => At(s, d, AtReceive) && s.watcher.Closed?
  }

  /** TunnelUp gives up: it calls Down and returns its error afterwards. */
  function GiveUp(s: State): State { s.(main := TearingDown, downs := s.downs[0 := AtLock]) }

  /** The body of Down under the mutex. */
  function Locked(s: State, d: nat): State {
    if s.down then s.(downs := s.downs[d := Returned], mu := None)
    else s.(down := true, cmd := false, owner := Some(d), mu := None,
      downs := s.downs[d := if s.cmd then AtKill else Returned])
  }

  function Apply(s: State, step: Step): State
    requires Enabled(s, step)
  {
    match step
    case ChildExit => s.(child := Exited)
    case WaitReturns => s.(child := Reaped, watcher := Recorded, waits := s.waits + 1)
    case CloseDone => s.(watcher := Closed)
    case TestDeadline(expired) => if expired then GiveUp(s) else s.(main := CheckContext)
    case TestContext(cancelled) => if cancelled then GiveUp(s) else s.(main := Peek)
    case PeekDone => if s.watcher.Closed? then GiveUp(s) else s.(main := Dial)
    case TryDial(ok) => if ok then s.(main := Grace, dialled := true) else s.(main := Head)
    case GraceSelect(timer) => if timer then s.(main := Final) else GiveUp(s)
    case FinalSelect =>
      if s.watcher.Closed? then GiveUp(s)
      else s.(main := Ready, openAtReturn := true, childAtReturn := s.child)
    case ReturnError => s.(main := Failed)
    case BeginDown(d) => s.(downs := s.downs[d := AtLock])
    case Lock(d) => s.(mu := Some(d), downs := s.downs[d := Held])
    case Section(d) => Locked(s, d)
    case Kill(d) => s.(kills := s.kills + 1, downs := s.downs[d := AtReceive])
    case Receive(d) => s.(downs := s.downs[d := Returned])
  }

  /** Right after the watcher goroutine has been started. */
  function Started(): State {
    State(Running, Waiting, Head, false, None, true, false, map[], None, 0, 0, false, Running)
  }

  ghost predicate Execution(states: seq<State>, steps: seq<Step>) {
    && |states| == |steps| + 1 && states[0] == Started()
    && forall k {:trigger steps[k]} :: 0 <= k < |steps| ==>
         Enabled(states[k], steps[k]) && states[k + 1] == Apply(states[k], steps[k])
  }

  // ---------------------------------------------------------------------------- invariant

  /** The child is waited for once, by the watcher. */
  predicate ReapOk(s: State) {
    && (s.child.Reaped? <==> !s.watcher.Waiting?)
    && s.waits == if s.child.Reaped? then 1 else 0
  }

  /** The mutex is held by the one Down inside the critical section. */
  predicate MuOk(s: State) {
    (forall d <- s.downs :: s.downs[d] == Held ==> s.mu == Some(d)) && (s.mu.Some? ==> At(s, s.mu.value, Held))
  }

  /** Past the down flag there is only the call that set it, and it does not return before the child is reaped. */
  predicate OwnerOk(s: State) {
    && s.cmd == !s.down && (s.down <==> s.owner.Some?)
    && (s.owner.Some? ==> s.owner.value in s.downs)
    && (forall d <- s.downs :: s.downs[d] == AtKill || s.downs[d] == AtReceive ==> s.owner == Some(d))
    && s.kills == (if s.owner.Some? && !At(s, s.owner.value, AtKill) then 1 else 0)
    && (s.owner.Some? ==> !At(s, s.owner.value, AtLock) && !At(s, s.owner.value, Held))
    && (s.owner.Some? && At(s, s.owner.value, Returned) ==> s.watcher.Closed?)
    && (forall d <- s.downs :: s.downs[d] == Returned ==> s.down)
  }

  /** Which Down calls there can be at each point of TunnelUp. */
  predicate MainOk(s: State) {
    && (s.main.TearingDown? || s.main.Failed? ==> s.downs.Keys == {0})
    && (s.main.Ready? ==> 0 !in s.downs && s.dialled && s.openAtReturn)
    && (s.downs != map[] ==> s.main.TearingDown? || s.main.Failed? || s.main.Ready?)
    && (s.main.Failed? ==> At(s, 0, Returned))
    && (s.main.Grace? || s.main.Final? ==> s.dialled)
  }

  predicate Inv(s: State) { ReapOk(s) && MuOk(s) && OwnerOk(s) && MainOk(s) }

  lemma MuKept(s: State, step: Step)
    requires MuOk(s) && MainOk(s) && Enabled(s, step)
    ensures MuOk(Apply(s, step))
  {
  }

  lemma OwnerKeptByMain(s: State, step: Step)
    requires OwnerOk(s) && MainOk(s) && Enabled(s, step)
    requires !step.Lock? && !step.Section? && !step.Kill? && !step.Receive?
    ensures OwnerOk(Apply(s, step))
  {
  }

  lemma OwnerKeptByLock(s: State, step: Step)
    requires MuOk(s) && OwnerOk(s) && Enabled(s, step) && (step.Lock? || step.Section?)
    ensures OwnerOk(Apply(s, step))
  {
  }

  lemma OwnerKeptByTeardown(s: State, step: Step)
    requires OwnerOk(s) && Enabled(s, step) && (step.Kill? || step.Receive?)
    ensures OwnerOk(Apply(s, step))
  {
  }

  lemma OwnerKept(s: State, step: Step)
    requires MuOk(s) && OwnerOk(s) && MainOk(s) && Enabled(s, step)
    ensures OwnerOk(Apply(s, step))
  {
    hide MuOk, OwnerOk, MainOk, Apply, Enabled;
    if step.Lock? || step.Section? { OwnerKeptByLock(s, step); }
    else if step.Kill? || step.Receive? { OwnerKeptByTeardown(s, step); }
    else { OwnerKeptByMain(s, step); }
  }

  lemma MainKept(s: State, step: Step)
    requires OwnerOk(s) && MainOk(s) && Enabled(s, step)
    ensures MainOk(Apply(s, step))
  {
  }

  lemma ReapKept(s: State, step: Step)
    requires ReapOk(s) && Enabled(s, step)
    ensures ReapOk(Apply(s, step))
  {
  }

  lemma InvStep(s: State, step: Step)
    requires Inv(s) && Enabled(s, step)
    ensures Inv(Apply(s, step))
  {
    hide ReapOk, MuOk, OwnerOk, MainOk, Apply, Enabled;
    ReapKept(s, step);
    MuKept(s, step);
    OwnerKept(s, step);
    MainKept(s, step);
  }

  lemma {:induction false} InvAlways(states: seq<State>, steps: seq<Step>, k: nat)
    requires Execution(states, steps) && k <= |steps|
    ensures Inv(states[k])
  {
    if k == 0 {
    } else {
      InvAlways(states, steps, k - 1);
      assert Enabled(states[k - 1], steps[k - 1]);
      InvStep(states[k - 1], steps[k - 1]);
    }
  }

  // ----------------------------------------------------------------------------- theorems

  /**
   * In every interleaving the child is waited for at most once and killed at most once, and once
   * TunnelUp has returned an error, or the Down that does the teardown has returned, the child is reaped
   * and waitDone closed. A successful TunnelUp has dialled the port and met waitDone open in its last select.
   */
  lemma TunnelIsSafe(states: seq<State>, steps: seq<Step>, k: nat)
    requires Execution(states, steps) && k <= |steps|
    ensures states[k].waits <= 1 && states[k].kills <= 1
    ensures states[k].watcher.Closed? ==> states[k].waits == 1 && states[k].child.Reaped?
    ensures states[k].main.Failed? ==> states[k].child.Reaped? && states[k].watcher.Closed? && states[k].kills == 1
    ensures states[k].owner.Some? && At(states[k], states[k].owner.value, Returned) ==> states[k].child.Reaped?
    ensures states[k].main.Ready? ==> states[k].dialled && states[k].openAtReturn
  {
    InvAlways(states, steps, k);
  }

  /** After one Down has killed the child, no other does. */
  lemma KilledByOneDown(states: seq<State>, steps: seq<Step>, i: nat, j: nat)
    requires Execution(states, steps) && i < j < |steps| && steps[i].Kill?
    ensures !steps[j].Kill?
  {
    KillsGrow(states, steps, i, j);
    assert states[j + 1] == Apply(states[j], steps[j]);
    InvAlways(states, steps, j + 1);
  }

  lemma {:induction false} KillsGrow(states: seq<State>, steps: seq<Step>, i: nat, j: nat)
    requires Execution(states, steps) && i < j <= |steps| && steps[i].Kill?
    ensures states[j].kills >= 1
    decreases j
  {
    assert states[j] == Apply(states[j - 1], steps[j - 1]);
    if i < j - 1 { KillsGrow(states, steps, i, j - 1); }
  }

  ghost predicate Before(steps: seq<Step>, step: Step, k: nat)
    requires k <= |steps|
  {
    exists i :: 0 <= i < k && steps[i] == step
  }

  lemma ExitStep(s: State, step: Step)
    requires Enabled(s, step)
    ensures Apply(s, step).child.Running? <==> s.child.Running? && step != ChildExit
  {
  }

  lemma CloseStep(s: State, step: Step)
    requires Enabled(s, step)
    ensures Apply(s, step).watcher.Closed? <==> s.watcher.Closed? || step == CloseDone
  {
  }

  /** The child's exit and the closing of waitDone can be read off the steps taken. */
  lemma {:induction false} ExitAndClose(states: seq<State>, steps: seq<Step>, k: nat)
    requires Execution(states, steps) && k <= |steps|
    ensures states[k].child.Running? <==> !Before(steps, ChildExit, k)
    ensures states[k].watcher.Closed? <==> Before(steps, CloseDone, k)
  {
    hide Enabled, Apply;
    if k == 0 {
      assert states[0] == Started();
    } else {
      ExitAndClose(states, steps, k - 1);
      assert Enabled(states[k - 1], steps[k - 1]) && states[k] == Apply(states[k - 1], steps[k - 1]);
      ExitStep(states[k - 1], steps[k - 1]);
      CloseStep(states[k - 1], steps[k - 1]);
      BeforeGrows(steps, ChildExit, k - 1);
      BeforeGrows(steps, CloseDone, k - 1);
    }
  }

  lemma BeforeGrows(steps: seq<Step>, step: Step, k: nat)
    requires k < |steps|
    ensures Before(steps, step, k + 1) <==> Before(steps, step, k) || steps[k] == step
  {
  }

  /** waitDone is closed after the exit it reports. */
  lemma CloseFollowsExit(states: seq<State>, steps: seq<Step>, m: nat, i: nat)
    requires Execution(states, steps) && m < |steps| && i < |steps| && steps[m] == CloseDone && steps[i] == ChildExit
    ensures i < m
  {
    InvAlways(states, steps, m);
    ExitAndClose(states, steps, m);
    assert Enabled(states[m], steps[m]);
    var j :| 0 <= j < m && steps[j] == ChildExit;
    OneExit(states, steps, i, j);
  }

  lemma OneExit(states: seq<State>, steps: seq<Step>, i: nat, j: nat)
    requires Execution(states, steps) && i < |steps| && j < |steps| && steps[i] == ChildExit && steps[j] == ChildExit
    ensures i == j
  {
    ExitAndClose(states, steps, i);
    ExitAndClose(states, steps, j);
    assert Enabled(states[i], steps[i]) && Enabled(states[j], steps[j]);
  }

  /** The watcher reports exit `i` before step `k`. */
  ghost predicate Reported(steps: seq<Step>, i: nat, k: nat)
    requires k <= |steps|
  {
    exists m :: i < m < k && steps[m] == CloseDone
  }

  lemma ReportedIffClosed(states: seq<State>, steps: seq<Step>, i: nat, k: nat)
    requires Execution(states, steps) && i < k <= |steps| && steps[i] == ChildExit
    ensures Reported(steps, i, k) <==> states[k].watcher.Closed?
  {
    ExitAndClose(states, steps, k);
    if m :| 0 <= m < k && steps[m] == CloseDone {
      CloseFollowsExit(states, steps, m, i);
    }
  }

  /**
   * In every interleaving, TunnelUp succeeds with a child that has already exited if and only if that exit
   * precedes its last select and the watcher has not closed waitDone in between.
   */
  lemma DeadSuccessIff(states: seq<State>, steps: seq<Step>, k: nat)
    requires Execution(states, steps) && k < |steps| && steps[k] == FinalSelect
    ensures states[k + 1].main.Ready? && !states[k].child.Running? <==>
      exists i :: 0 <= i < k && steps[i] == ChildExit && !Reported(steps, i, k)
  {
    ExitAndClose(states, steps, k);
    assert states[k + 1] == Apply(states[k], steps[k]);
    forall i | 0 <= i < k && steps[i] == ChildExit
      ensures Reported(steps, i, k) <==> states[k].watcher.Closed?
    {
      ReportedIffClosed(states, steps, i, k);
    }
  }

  /**
   * A success vouches for a child that was alive when the grace window ended if and only if the watcher
   * reports every exit from before that moment by the time of the last select.
   */
  lemma GraceVouchesIff(states: seq<State>, steps: seq<Step>, g: nat, k: nat)
    requires Execution(states, steps) && g < k < |steps| && steps[g] == GraceSelect(true) && steps[k] == FinalSelect
    ensures (states[k + 1].main.Ready? ==> states[g].child.Running?) <==>
      forall i :: 0 <= i < g && steps[i] == ChildExit ==> Reported(steps, i, k)
  {
    ExitAndClose(states, steps, g);
    assert states[k + 1] == Apply(states[k], steps[k]);
    forall i | 0 <= i < g && steps[i] == ChildExit
      ensures Reported(steps, i, k) <==> states[k].watcher.Closed?
    {
      ReportedIffClosed(states, steps, i, k);
    }
  }

  /**
   * A run in which TunnelUp succeeds although the child has exited: the exit falls between the grace timer and the
   * select.
   */
  lemma DeadChildReported() returns (states: seq<State>, steps: seq<Step>)
    ensures Execution(states, steps)
    ensures states[|steps|].main.Ready? && states[|steps|].childAtReturn.Exited?
  {
    steps := [TestDeadline(false), TestContext(false), PeekDone, TryDial(true), GraceSelect(true), ChildExit,
      FinalSelect];
    var s0 := Started();
    var final := s0.(main := Final, dialled := true);
    states := [s0, s0.(main := CheckContext), s0.(main := Peek), s0.(main := Dial), s0.(main := Grace, dialled := true),
               final, final.(child := Exited),
               final.(child := Exited, main := Ready, openAtReturn := true, childAtReturn := Exited)];
  }

  /** Some call has not returned yet. */
  ghost predicate Unfinished(s: State) {
    !(s.main.Ready? || s.main.Failed?) || exists d <- s.downs :: s.downs[d] != Returned
  }

  /**
   * No deadlock: while a call is unfinished, TunnelUp, a Down or the watcher can take a step, or a child
   * that has been killed is about to exit.
   */
  lemma AlwaysProgress(s: State) returns (step: Step)
    requires Inv(s) && Unfinished(s)
    ensures Enabled(s, step) && !step.BeginDown? && (step.ChildExit? ==> s.kills == 1)
  {
    match s.main
    case Head => step := TestDeadline(true);
    case CheckContext => step := TestContext(true);
    case Peek => step := PeekDone;
    case Dial => step := TryDial(false);
    case Grace => step := GraceSelect(true);
    case Final => step := FinalSelect;
    case TearingDown =>
      if At(s, 0, Returned) { step := ReturnError; } else { step := DownProgress(s, 0); }
    case _ =>
      var d :| d in s.downs && s.downs[d] != Returned;
      step := DownProgress(s, d);
  }

  lemma DownProgress(s: State, d: nat) returns (step: Step)
    requires Inv(s) && d in s.downs && s.downs[d] != Returned
    ensures Enabled(s, step) && !step.BeginDown? && (step.ChildExit? ==> s.kills == 1)
  {
    match s.downs[d]
    case AtLock => step := if s.mu.None? then Lock(d) else Section(s.mu.value);
    case Held => step := Section(d);
    case AtKill => step := Kill(d);
    case AtReceive =>
      step := if s.watcher.Closed? then Receive(d)
        else if s.watcher.Recorded? then CloseDone
        else if s.child.Exited? then WaitReturns
        else ChildExit;
  }
}
