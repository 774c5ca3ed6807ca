/** How TunnelUp ends, told from the steps it took. */
module TunnelFacts {
  import opened Prelude
  import opened Tunnel

  /** The step makes TunnelUp give up: the deadline, the context, or a child whose end has been reported. */
  ghost predicate GivesUpAt(states: seq<State>, steps: seq<Step>, i: nat)
    requires i < |steps| && i < |states|
  {
    || steps[i] == TestDeadline(true) || steps[i] == TestContext(true) || steps[i] == GraceSelect(false)
    || ((steps[i] == PeekDone || steps[i] == FinalSelect) && states[i].watcher.Closed?)
  }

  /** The step lets TunnelUp return the tunnel. */
  ghost predicate SucceedsAt(states: seq<State>, steps: seq<Step>, i: nat)
    requires i < |steps| && i < |states|
  {
    steps[i] == FinalSelect && !states[i].watcher.Closed?
  }

  ghost predicate Gone(main: MainPc) { main.TearingDown? || main.Failed? }

  lemma GoneNext(s: State, step: Step)
    requires Enabled(s, step)
    ensures var quits := step == TestDeadline(true) || step == TestContext(true) || step == GraceSelect(false) ||
        ((step == PeekDone || step == FinalSelect) && s.watcher.Closed?);
      Gone(Apply(s, step).main) <==> Gone(s.main) || quits
  {
    hide Locked;
    if step.Section? { LockedKeepsMain(s, step.d); }
  }

  lemma LockedKeepsMain(s: State, d: nat)
    ensures Locked(s, d).main == s.main
  {
  }

  lemma ReadyNext(s: State, step: Step)
    requires Enabled(s, step)
    ensures Apply(s, step).main.Ready? <==> s.main.Ready? || (step == FinalSelect && !s.watcher.Closed?)
  {
    hide Locked;
    if step.Section? { LockedKeepsMain(s, step.d); }
  }

  /**
   * In every interleaving TunnelUp is giving up or has failed exactly when one of its steps has met an expired
   * deadline, a cancelled context or a reported end of the child; and it has succeeded exactly when its last select
   * has met none. So after any of those it never succeeds.
   */
  lemma {:induction false} TunnelUpEndsIff(states: seq<State>, steps: seq<Step>, k: nat)
    requires Execution(states, steps) && k <= |steps|
    ensures Gone(states[k].main) <==> exists i :: 0 <= i < k && GivesUpAt(states, steps, i)
    ensures states[k].main.Ready? <==> exists i :: 0 <= i < k && SucceedsAt(states, steps, i)
  {
    hide Enabled, Apply;
    if k == 0 {
      assert states[0] == Started();
    } else {
      TunnelUpEndsIff(states, steps, k - 1);
      assert Enabled(states[k - 1], steps[k - 1]) && states[k] == Apply(states[k - 1], steps[k - 1]);
      GoneNext(states[k - 1], steps[k - 1]);
      ReadyNext(states[k - 1], steps[k - 1]);
      assert GivesUpAt(states, steps, k - 1) ==> exists i :: 0 <= i < k && GivesUpAt(states, steps, i);
      assert SucceedsAt(states, steps, k - 1) ==> exists i :: 0 <= i < k && SucceedsAt(states, steps, i);
    }
  }

  /** Once TunnelUp has met one of those, it never returns the tunnel. */
  lemma NeverReadyAfterGivingUp(states: seq<State>, steps: seq<Step>, i: nat, k: nat)
    requires Execution(states, steps) && i < k <= |steps| && GivesUpAt(states, steps, i)
    ensures !states[k].main.Ready?
  {
    hide Execution, GivesUpAt;
    ExecutionLength(states, steps);
    TunnelUpEndsIff(states, steps, k);
    assert Gone(states[k].main);
  }

  lemma ExecutionLength(states: seq<State>, steps: seq<Step>)
    requires Execution(states, steps)
    ensures |states| == |steps| + 1
  {
  }

  predicate IsMainStep(step: Step) {
    step.TestDeadline? || step.TestContext? || step.PeekDone? || step.TryDial? || step.GraceSelect? || step.FinalSelect?
  }

  /** The step that brought TunnelUp to where it is; none of its steps has been taken since. */
  lemma {:induction false} Entered(states: seq<State>, steps: seq<Step>, k: nat) returns (i: nat)
    requires Execution(states, steps) && k <= |steps| && !states[k].main.Head? && !Gone(states[k].main)
    ensures i < k && IsMainStep(steps[i]) && states[i + 1].main == states[k].main
    ensures forall m :: i < m < k ==> !IsMainStep(steps[m])
  {
    assert k > 0;
    assert Enabled(states[k - 1], steps[k - 1]) && states[k] == Apply(states[k - 1], steps[k - 1]);
    if IsMainStep(steps[k - 1]) {
      i := k - 1;
    } else {
      i := Entered(states, steps, k - 1);
    }
  }

  /**
   * A tunnel is returned only at the end of a pass in which the deadline was ahead, the context live, the child not
   * reported dead, the port dialled and the grace window waited for, in that order.
   */
  lemma ReadyPath(states: seq<State>, steps: seq<Step>, k: nat)
    returns (deadline: nat, context: nat, peek: nat, dial: nat, grace: nat, final: nat)
    requires Execution(states, steps) && k <= |steps| && states[k].main.Ready?
    ensures deadline < context < peek < dial < grace < final < k
    ensures steps[deadline] == TestDeadline(false) && steps[context] == TestContext(false)
    ensures steps[peek] == PeekDone && !states[peek].watcher.Closed? && steps[dial] == TryDial(true)
    ensures steps[grace] == GraceSelect(true) && steps[final] == FinalSelect && !states[final].watcher.Closed?
    ensures forall m :: deadline < m < k && IsMainStep(steps[m]) ==> m in {context, peek, dial, grace, final}
  {
    hide Execution;
    ExecutionLength(states, steps);
    final := EnteredFrom(states, steps, k);
    grace := EnteredFrom(states, steps, final);
    dial := EnteredFrom(states, steps, grace);
    peek := EnteredFrom(states, steps, dial);
    context := EnteredFrom(states, steps, peek);
    deadline := EnteredFrom(states, steps, context);
  }

  lemma EnteredFrom(states: seq<State>, steps: seq<Step>, k: nat) returns (i: nat)
    requires Execution(states, steps) && k <= |steps| && k < |states| && !states[k].main.Head? && !Gone(states[k].main)
    ensures |states| == |steps| + 1
    ensures i < k && (forall m :: i < m < k ==> !IsMainStep(steps[m]))
    ensures match states[k].main
      case Ready => steps[i] == FinalSelect && !states[i].watcher.Closed? && states[i].main.Final?
      case Final => steps[i] == GraceSelect(true) && states[i].main.Grace?
      case Grace => steps[i] == TryDial(true) && states[i].main.Dial?
      case Dial => steps[i] == PeekDone && !states[i].watcher.Closed? && states[i].main.Peek?
      case Peek => steps[i] == TestContext(false) && states[i].main.CheckContext?
      case CheckContext => steps[i] == TestDeadline(false) && states[i].main.Head?
      case _ => true
  {
    i := Entered(states, steps, k);
    assert Enabled(states[i], steps[i]) && states[i + 1] == Apply(states[i], steps[i]);
  }

  /** A returned tunnel can be taken down, by any number of calls. */
  lemma DownCanBegin(s: State, d: nat)
    requires s.main.Ready? && d != 0 && d !in s.downs
    ensures Enabled(s, BeginDown(d)) && At(Apply(s, BeginDown(d)), d, AtLock)
  {
  }

  /** A run in which TunnelUp succeeds and one Down kills and reaps the child, and a second finds nothing to do. */
  lemma DownExample() returns (states: seq<State>, steps: seq<Step>)
    ensures Execution(states, steps)
    ensures var last := states[|steps|];
      && last.main.Ready? && last.downs == map[1 := Returned, 2 := Returned]
      && last.kills == 1 && last.child.Reaped? && last.watcher.Closed?
  {
    hide Enabled, Apply;
    steps := [TestDeadline(false), TestContext(false), PeekDone, TryDial(true), GraceSelect(true), FinalSelect,
      BeginDown(1), Lock(1), Section(1), Kill(1), BeginDown(2), Lock(2), Section(2), ChildExit, WaitReturns, CloseDone,
      Receive(1)];
    var s0 := Started();
    var s4 := s0.(main := Grace, dialled := true);
    var s6 := s4.(main := Ready, openAtReturn := true, childAtReturn := Child.Running);
    var s9 := s6.(downs := map[1 := AtKill], down := true, cmd := false, owner := Some(1));
    var s10 := s9.(kills := 1, downs := map[1 := AtReceive]);
    var s13 := s10.(downs := map[1 := AtReceive, 2 := Returned]);
    var s15 := s13.(child := Reaped, watcher := Recorded, waits := 1);
    var s16 := s15.(watcher := Closed);
    states := [s0, s0.(main := CheckContext), s0.(main := Peek), s0.(main := Dial), s4, s4.(main := Final), s6,
      s6.(downs := map[1 := AtLock]), s6.(downs := map[1 := Held], mu := Some(1)), s9, s10,
      s10.(downs := map[1 := AtReceive, 2 := AtLock]), s10.(downs := map[1 := AtReceive, 2 := Held], mu := Some(2)),
      s13, s13.(child := Exited), s15, s16, s16.(downs := map[1 := Returned, 2 := Returned])];
    UpPart(s0, s4, s6);
    FirstDownPart(s6, s9, s10);
    SecondDownPart(s10, s13);
    EndPart(s13, s15, s16);
  }

  ghost predicate Leads(s: State, step: Step, s': State) { Enabled(s, step) && s' == Apply(s, step) }

  lemma UpPart(s0: State, s4: State, s6: State)
    requires s0 == Started() && s4 == s0.(main := Grace, dialled := true)
    requires s6 == s4.(main := Ready, openAtReturn := true, childAtReturn := Child.Running)
    ensures Leads(s0, TestDeadline(false), s0.(main := CheckContext))
    ensures Leads(s0.(main := CheckContext), TestContext(false), s0.(main := Peek))
    ensures Leads(s0.(main := Peek), PeekDone, s0.(main := Dial)) && Leads(s0.(main := Dial), TryDial(true), s4)
    ensures Leads(s4, GraceSelect(true), s4.(main := Final)) && Leads(s4.(main := Final), FinalSelect, s6)
  {
  }

  lemma FirstDownPart(s6: State, s9: State, s10: State)
    requires s6.main.Ready? && s6.downs == map[] && s6.mu == None && !s6.down && s6.cmd && s6.kills == 0
    requires s9 == s6.(downs := map[1 := AtKill], down := true, cmd := false, owner := Some(1))
    requires s10 == s9.(kills := 1, downs := map[1 := AtReceive])
    ensures Leads(s6, BeginDown(1), s6.(downs := map[1 := AtLock]))
    ensures Leads(s6.(downs := map[1 := AtLock]), Lock(1), s6.(downs := map[1 := Held], mu := Some(1)))
    ensures Leads(s6.(downs := map[1 := Held], mu := Some(1)), Section(1), s9) && Leads(s9, Kill(1), s10)
  {
  }

  lemma SecondDownPart(s10: State, s13: State)
    requires s10.main.Ready? && s10.downs == map[1 := AtReceive] && s10.mu == None && s10.down
    requires s13 == s10.(downs := map[1 := AtReceive, 2 := Returned])
    ensures var s11 := s10.(downs := map[1 := AtReceive, 2 := AtLock]);
      var s12 := s10.(downs := map[1 := AtReceive, 2 := Held], mu := Some(2));
      Leads(s10, BeginDown(2), s11) && Leads(s11, Lock(2), s12) && Leads(s12, Section(2), s13)
  {
  }

  lemma EndPart(s13: State, s15: State, s16: State)
    requires s13.downs == map[1 := AtReceive, 2 := Returned] && s13.child.Running? && s13.watcher.Waiting?
    requires s13.waits == 0 && s15 == s13.(child := Reaped, watcher := Recorded, waits := 1)
    requires s16 == s15.(watcher := Closed)
    ensures Leads(s13, ChildExit, s13.(child := Exited)) && Leads(s13.(child := Exited), WaitReturns, s15)
    ensures Leads(s15, CloseDone, s16) && Leads(s16, Receive(1), s16.(downs := map[1 := Returned, 2 := Returned]))
  {
  }
}
