/**
 * How calls end, told from the steps they took: when Verify, Get and Refresh return without error, and what they
 * have done by then. `b` is the step that began the call, and the call is alive up to the moment in question.
 */
module StoreOutcomes {
  import opened Prelude
  import opened StoreNames
  import opened StoreProtocol
  import opened StoreInvariants
  import opened StoreTheorems

  /** The call that step `b` began as `t` is still on record at moment `k`. */
  ghost predicate Since(states: seq<State>, steps: seq<Step>, b: nat, k: nat, t: nat)
    requires |states| == |steps| + 1
  {
    && b < k < |states| && steps[b].Begin? && steps[b].t == t
    && forall m :: b < m <= k ==> t in states[m].threads
  }

  predicate TakenBy(step: Step, t: nat) { IsCallStep(step) && step.t == t }

  /** One step seen from a call: its own control moves, or it stays as it is. */
  lemma OneStep(h: Hash, states: seq<State>, steps: seq<Step>, k: nat, t: nat)
    requires Execution(h, states, steps) && k < |steps| && t in states[k].threads && t in states[k + 1].threads
    ensures var th, th' := states[k].threads[t], states[k + 1].threads[t];
      if TakenBy(steps[k], t)
      then StepAt(th.pc, steps[k]) && (steps[k].HashBlob? ==> th.ino in states[k].disk.inodes) &&
           th' == NextThread(h, states[k].disk, th, steps[k])
      else th' == th
  {
    hide StepAt, NextThread, Perform, EffectOf, Events;
    assert Enabled(states[k], steps[k]) && states[k + 1] == Apply(h, states[k], steps[k]);
  }

  lemma JustBegun(h: Hash, states: seq<State>, steps: seq<Step>, b: nat, t: nat)
    requires Execution(h, states, steps) && Since(states, steps, b, b + 1, t)
    ensures states[b + 1].threads[t] == NewThread(steps[b].call)
  {
    assert Enabled(states[b], steps[b]) && states[b + 1] == Apply(h, states[b], steps[b]);
  }

  lemma {:induction false} CallIsKept(h: Hash, states: seq<State>, steps: seq<Step>, b: nat, k: nat, t: nat)
    requires Execution(h, states, steps) && Since(states, steps, b, k, t)
    ensures states[k].threads[t].call == steps[b].call
  {
    hide StepAt, NextPc;
    if k == b + 1 {
      JustBegun(h, states, steps, b, t);
    } else {
      CallIsKept(h, states, steps, b, k - 1, t);
      OneStep(h, states, steps, k - 1, t);
    }
  }

  // -------------------------------------------------------------------------------- Verify

  /** At step `j` the call reads the whole file at its address, and these are the bytes. */
  ghost predicate Reads(states: seq<State>, steps: seq<Step>, j: nat, t: nat, addr: string, bytes: Bytes)
    requires |states| == |steps| + 1
  {
    && j < |steps| && steps[j] == HashBlob(t, false)
    && Blob(addr) in states[j].disk.dir && var f := states[j].disk.dir[Blob(addr)];
    && f in states[j].disk.inodes && states[j].disk.inodes[f].data == bytes
  }

  /** A hashing step reads the file at the address. */
  lemma HashingReads(h: Hash, states: seq<State>, steps: seq<Step>, j: nat, t: nat)
    requires Execution(h, states, steps) && j < |steps| && steps[j] == HashBlob(t, false)
    ensures t in states[j].threads && states[j].threads[t].pc.ReadBlob?
    ensures states[j].threads[t].ino in states[j].disk.inodes
    ensures Reads(states, steps, j, t, states[j].threads[t].call.addr,
      states[j].disk.inodes[states[j].threads[t].ino].data)
  {
    assert Enabled(states[j], steps[j]);
    JudgedBlobInPlace(h, states, steps, j, t);
  }

  /** Somewhere on its way the call has read bytes with the right hash. */
  ghost predicate ReadRight(h: Hash, states: seq<State>, steps: seq<Step>, b: nat, k: nat, t: nat, addr: string)
    requires |states| == |steps| + 1
  {
    exists j, bytes :: b < j < k && Reads(states, steps, j, t, addr, bytes) && h(bytes) == addr
  }

  lemma VerifyMoves(h: Hash, d: Disk, th: Thread, step: Step)
    requires ThreadOk(th) && th.call.op.Verify? && IsCallStep(step) && StepAt(th.pc, step)
    requires step.HashBlob? ==> th.ino in d.inodes
    ensures var right := step.HashBlob? && !step.fails && h(d.inodes[th.ino].data) == th.call.addr;
      NextThread(h, d, th, step).ok <==> th.ok || right
  {
  }

  /**
   * Verify returns without error if and only if it has read the file at its address and the bytes hash to that
   * address, in every execution.
   */
  lemma {:induction false} VerifyOkIff(h: Hash, states: seq<State>, steps: seq<Step>, b: nat, k: nat, t: nat)
    requires Execution(h, states, steps) && Since(states, steps, b, k, t) && steps[b].call.op.Verify?
    ensures states[k].threads[t].ok <==> ReadRight(h, states, steps, b, k, t, steps[b].call.addr)
  {
    hide StepAt, NextThread, ThreadOk, Reads, Since;
    SinceShrinks(states, steps, b, k, t);
    if k == b + 1 {
      JustBegun(h, states, steps, b, t);
    } else {
      VerifyOkIff(h, states, steps, b, k - 1, t);
      CallIsKept(h, states, steps, b, k - 1, t);
      OneStep(h, states, steps, k - 1, t);
      RightNext(h, states, steps, b, k - 1, t, steps[b].call.addr);
      if TakenBy(steps[k - 1], t) {
        ThreadRecordOk(h, states, steps, k - 1, t);
        VerifyMoves(h, states[k - 1].disk, states[k - 1].threads[t], steps[k - 1]);
      }
    }
  }

  lemma SinceShrinks(states: seq<State>, steps: seq<Step>, b: nat, k: nat, t: nat)
    requires |states| == |steps| + 1 && Since(states, steps, b, k, t)
    ensures b < k < |states| && t in states[k].threads && (k > b + 1 ==> Since(states, steps, b, k - 1, t))
    ensures k > b + 1 ==> t in states[k - 1].threads
    ensures steps[b].Begin? && steps[b].t == t
  {
  }

  lemma RightNext(h: Hash, states: seq<State>, steps: seq<Step>, b: nat, k: nat, t: nat, addr: string)
    requires Execution(h, states, steps) && b < k < |steps|
    requires t in states[k].threads && states[k].threads[t].call.addr == addr
    ensures ReadRight(h, states, steps, b, k + 1, t, addr) <==>
      || ReadRight(h, states, steps, b, k, t, addr)
      || (steps[k] == HashBlob(t, false) && states[k].threads[t].ino in states[k].disk.inodes &&
          h(states[k].disk.inodes[states[k].threads[t].ino].data) == addr)
  {
    hide Enabled, Apply;
    if steps[k] == HashBlob(t, false) { HashingReads(h, states, steps, k, t); }
    if j, bytes :| b < j < k + 1 && Reads(states, steps, j, t, addr, bytes) && h(bytes) == addr {
      if j < k { assert ReadRight(h, states, steps, b, k, t, addr); }
    }
  }

  /** A step of Verify that is answered with an error before the bytes are read. */
  predicate Refuses(step: Step) { (step.OpenLock? || step.OpenForVerify? || step.HashBlob?) && step.fails }

  ghost predicate Unrefused(steps: seq<Step>, b: nat, k: nat, t: nat)
    requires k <= |steps|
  {
    forall m :: b < m < k && TakenBy(steps[m], t) ==> !Refuses(steps[m])
  }

  /** There was nothing at the address when it was to be opened. */
  ghost predicate Missing(states: seq<State>, steps: seq<Step>, b: nat, k: nat, t: nat, addr: string)
    requires |states| == |steps| + 1 && k <= |steps|
  {
    exists m :: b < m < k && TakenBy(steps[m], t) && steps[m].OpenForVerify? && Blob(addr) !in states[m].disk.dir
  }

  ghost predicate HasRead(steps: seq<Step>, b: nat, k: nat, t: nat)
    requires k <= |steps|
  {
    exists m :: b < m < k && steps[m] == HashBlob(t, false)
  }

  /** Where a Verify is, by what has happened to it. */
  predicate VerifyAt(th: Thread, fine: bool, missing: bool, read: bool) {
    if Returning(th.pc) then read <==> fine && !missing
    else fine && !missing && (read <==> (Judging(th.pc) && !th.pc.ReadBlob?) || th.pc.SyncRemoval?)
  }

  lemma VerifyGoes(h: Hash, d: Disk, th: Thread, step: Step, fine: bool, missing: bool, read: bool)
    requires ThreadOk(th) && th.call.op.Verify? && IsCallStep(step) && StepAt(th.pc, step)
    requires step.HashBlob? ==> th.ino in d.inodes
    requires VerifyAt(th, fine, missing, read)
    ensures VerifyAt(NextThread(h, d, th, step), fine && !Refuses(step),
      missing || (step.OpenForVerify? && Blob(th.call.addr) !in d.dir), read || (step.HashBlob? && !step.fails))
  {
  }

  lemma VerifyCourseNext(states: seq<State>, steps: seq<Step>, b: nat, k: nat, t: nat, addr: string)
    requires |states| == |steps| + 1 && b < k < |steps|
    ensures var own := TakenBy(steps[k], t);
      && (Unrefused(steps, b, k + 1, t) <==> Unrefused(steps, b, k, t) && !(own && Refuses(steps[k])))
      && (HasRead(steps, b, k + 1, t) <==> HasRead(steps, b, k, t) || steps[k] == HashBlob(t, false))
  {
  }

  lemma MissingNext(states: seq<State>, steps: seq<Step>, b: nat, k: nat, t: nat, addr: string)
    requires |states| == |steps| + 1 && b < k < |steps|
    ensures Missing(states, steps, b, k + 1, t, addr) <==>
      || Missing(states, steps, b, k, t, addr)
      || (TakenBy(steps[k], t) && steps[k].OpenForVerify? && Blob(addr) !in states[k].disk.dir)
  {
  }

  lemma {:induction false} VerifyCourse(h: Hash, states: seq<State>, steps: seq<Step>, b: nat, k: nat, t: nat)
    requires Execution(h, states, steps) && Since(states, steps, b, k, t) && steps[b].call.op.Verify?
    ensures VerifyAt(states[k].threads[t], Unrefused(steps, b, k, t),
      Missing(states, steps, b, k, t, steps[b].call.addr), HasRead(steps, b, k, t))
  {
    hide Enabled, Apply, StepAt, NextThread, ThreadOk, Unrefused, Missing, HasRead;
    var addr := steps[b].call.addr;
    if k == b + 1 {
      JustBegun(h, states, steps, b, t);
      VerifyBegins(states, steps, b, t, addr);
    } else {
      VerifyCourse(h, states, steps, b, k - 1, t);
      CallIsKept(h, states, steps, b, k - 1, t);
      OneStep(h, states, steps, k - 1, t);
      VerifyCourseNext(states, steps, b, k - 1, t, addr);
      MissingNext(states, steps, b, k - 1, t, addr);
      if TakenBy(steps[k - 1], t) {
        ThreadRecordOk(h, states, steps, k - 1, t);
        VerifyGoes(h, states[k - 1].disk, states[k - 1].threads[t], steps[k - 1], Unrefused(steps, b, k - 1, t),
          Missing(states, steps, b, k - 1, t, addr), HasRead(steps, b, k - 1, t));
      }
    }
  }

  lemma VerifyBegins(states: seq<State>, steps: seq<Step>, b: nat, t: nat, addr: string)
    requires |states| == |steps| + 1 && b < |steps|
    ensures Unrefused(steps, b, b + 1, t) && !Missing(states, steps, b, b + 1, t, addr) && !HasRead(steps, b, b + 1, t)
  {
  }

  /** A finished Verify has read the file if and only if none of its steps was refused and there was a file to open. */
  lemma VerifyReadsIff(h: Hash, states: seq<State>, steps: seq<Step>, b: nat, k: nat, t: nat)
    requires Execution(h, states, steps) && Since(states, steps, b, k, t) && steps[b].call.op.Verify?
    requires states[k].threads[t].pc.Done?
    ensures HasRead(steps, b, k, t) <==>
      Unrefused(steps, b, k, t) && !Missing(states, steps, b, k, t, steps[b].call.addr)
  {
    hide Enabled, Apply, Unrefused, Missing, HasRead;
    VerifyCourse(h, states, steps, b, k, t);
  }

  // ----------------------------------------------------------------- what Verify does about drift

  /** A step after `j` that leaves the address empty, or the refusal of both ways to do so. */
  ghost predicate Handled(states: seq<State>, steps: seq<Step>, j: nat, k: nat, t: nat, addr: string)
    requires |states| == |steps| + 1 && k <= |steps|
  {
    || (exists m :: j < m < k && (steps[m] == RenameAside(t, false) || steps[m] == UnlinkDrifted(t, false)) &&
          Blob(addr) in states[m].disk.dir && Blob(addr) !in states[m + 1].disk.dir)
    || (exists m, n :: j < m < n < k && steps[m] == RenameAside(t, true) && steps[n] == UnlinkDrifted(t, true))
  }

  /** Where a call is after it has read wrong bytes. */
  ghost predicate AfterDrift(states: seq<State>, steps: seq<Step>, j: nat, k: nat, t: nat, addr: string)
    requires |states| == |steps| + 1 && k <= |steps|
  {
    && t in states[k].threads && var pc := states[k].threads[t].pc;
    || pc.Probe? || pc.MoveAside?
    || (pc.RemoveDrifted? && exists m :: j < m < k && steps[m] == RenameAside(t, true))
    || ((pc.SyncRemoval? || Returning(pc)) && Handled(states, steps, j, k, t, addr))
  }

  lemma DriftMoves(h: Hash, d: Disk, th: Thread, step: Step)
    requires IsCallStep(step) && StepAt(th.pc, step) && Blob(th.call.addr) in d.dir
    requires step.HashBlob? ==> th.ino in d.inodes
    ensures var pc := NextThread(h, d, th, step).pc;
      && (step.HashBlob? && !step.fails && h(d.inodes[th.ino].data) != th.call.addr ==> pc.Probe?)
      && (th.pc.Probe? ==> pc.Probe? || pc.MoveAside?)
      && (th.pc.MoveAside? ==> step.RenameAside? && if step.fails then pc.RemoveDrifted? else pc.SyncRemoval?)
      && (th.pc.RemoveDrifted? ==> step.UnlinkDrifted? && pc.SyncRemoval?)
  {
  }

  lemma ReturnMoves(h: Hash, d: Disk, th: Thread, step: Step)
    requires IsCallStep(step) && StepAt(th.pc, step)
    requires step.HashBlob? ==> th.ino in d.inodes
    ensures th.pc.SyncRemoval? || Returning(th.pc) ==> Returning(NextThread(h, d, th, step).pc)
  {
  }

  /** A successful removal by Verify empties the address. */
  lemma RemovalEmpties(h: Hash, states: seq<State>, steps: seq<Step>, k: nat, t: nat)
    requires Execution(h, states, steps) && k < |steps|
    requires steps[k] == RenameAside(t, false) || steps[k] == UnlinkDrifted(t, false)
    ensures t in states[k].threads && Blob(states[k].threads[t].call.addr) in states[k].disk.dir
    ensures Blob(states[k].threads[t].call.addr) !in states[k + 1].disk.dir
  {
    assert Enabled(states[k], steps[k]) && states[k + 1] == Apply(h, states[k], steps[k]);
    JudgedBlobInPlace(h, states, steps, k, t);
    assert states[k + 1].disk == Perform(states[k].disk, EffectOf(states[k].disk, states[k].threads[t], steps[k]));
  }

  lemma HandledStays(states: seq<State>, steps: seq<Step>, j: nat, k: nat, t: nat, addr: string)
    requires |states| == |steps| + 1 && k < |steps|
    ensures Handled(states, steps, j, k, t, addr) ==> Handled(states, steps, j, k + 1, t, addr)
  {
  }

  lemma DriftNext(h: Hash, states: seq<State>, steps: seq<Step>, j: nat, k: nat, t: nat, addr: string)
    requires Execution(h, states, steps) && j < k < |steps| && AfterDrift(states, steps, j, k, t, addr)
    requires states[k].threads[t].call.addr == addr && t in states[k + 1].threads
    ensures AfterDrift(states, steps, j, k + 1, t, addr)
  {
    hide Enabled, Apply, StepAt, NextThread, Handled;
    OneStep(h, states, steps, k, t);
    HandledStays(states, steps, j, k, t, addr);
    var d, th, step := states[k].disk, states[k].threads[t], steps[k];
    if TakenBy(step, t) {
      ReturnMoves(h, d, th, step);
      if Drifted(th.pc) {
        JudgedBlobInPlace(h, states, steps, k, t);
        DriftMoves(h, d, th, step);
        if step == RenameAside(t, false) || step == UnlinkDrifted(t, false) { RemovalEmpties(h, states, steps, k, t); }
        HandledNow(states, steps, j, k, t, addr);
      }
    }
  }

  lemma HandledNow(states: seq<State>, steps: seq<Step>, j: nat, k: nat, t: nat, addr: string)
    requires |states| == |steps| + 1 && j < k < |steps|
    ensures var d, d' := states[k].disk, states[k + 1].disk;
      var removes := steps[k] == RenameAside(t, false) || steps[k] == UnlinkDrifted(t, false);
      removes && Blob(addr) in d.dir && Blob(addr) !in d'.dir ==> Handled(states, steps, j, k + 1, t, addr)
    ensures steps[k] == UnlinkDrifted(t, true) && (exists m :: j < m < k && steps[m] == RenameAside(t, true)) ==>
      Handled(states, steps, j, k + 1, t, addr)
  {
  }

  /**
   * Wrong bytes read at step `j`: before it returns, the call leaves the address empty by moving the file aside or
   * removing it, unless the host refuses both.
   */
  lemma {:induction false} DriftIsHandled(h: Hash, states: seq<State>, steps: seq<Step>, b: nat, j: nat, k: nat,
                                          t: nat, bytes: Bytes)
    requires Execution(h, states, steps) && Since(states, steps, b, k, t) && b < j < k
    requires Reads(states, steps, j, t, steps[b].call.addr, bytes) && h(bytes) != steps[b].call.addr
    ensures AfterDrift(states, steps, j, k, t, steps[b].call.addr)
    ensures states[k].threads[t].pc.Done? ==> Handled(states, steps, j, k, t, steps[b].call.addr)
  {
    hide Enabled, Apply, StepAt, NextThread, Handled;
    CallIsKept(h, states, steps, b, k, t);
    if k == j + 1 {
      CallIsKept(h, states, steps, b, j, t);
      HashingReads(h, states, steps, j, t);
      OneStep(h, states, steps, j, t);
      DriftMoves(h, states[j].disk, states[j].threads[t], steps[j]);
    } else {
      DriftIsHandled(h, states, steps, b, j, k - 1, t, bytes);
      CallIsKept(h, states, steps, b, k - 1, t);
      DriftNext(h, states, steps, j, k - 1, t, steps[b].call.addr);
    }
  }

  // ------------------------------------------------------------------------- Get and Refresh

  /** A step of a fetch that is answered with an error. */
  predicate Fails(step: Step) {
    (step.OpenLock? || step.SendRequest? || step.MakeTemp? || step.EndBody? || step.FsyncTemp? ||
     step.CheckTemp? || step.RenameTemp? || step.FsyncPublish?) && step.fails
  }

  ghost predicate Fine(steps: seq<Step>, b: nat, k: nat, t: nat)
    requires k <= |steps|
  {
    forall m :: b < m < k && TakenBy(steps[m], t) ==> !Fails(steps[m])
  }

  /** Everything the server has sent. */
  ghost function Received(steps: seq<Step>, b: nat, k: nat, t: nat): Bytes
    requires k <= |steps|
  {
    if k <= b + 1 then []
    else
      var before := Received(steps, b, k - 1, t);
      if steps[k - 1].Receive? && steps[k - 1].t == t then before + steps[k - 1].chunk else before
  }

  predicate Looks(step: Step) { step.StatFast? || step.StatMu? || step.StatSha? }

  /** One of the looks before the download found a blob. */
  ghost predicate FoundBlob(states: seq<State>, steps: seq<Step>, b: nat, k: nat, t: nat, addr: string)
    requires |states| == |steps| + 1 && k <= |steps|
  {
    exists m :: b < m < k && TakenBy(steps[m], t) && Looks(steps[m]) && Blob(addr) in states[m].disk.dir
  }

  /** The download was gone when it was to be renamed. */
  ghost predicate SweptAway(states: seq<State>, steps: seq<Step>, b: nat, k: nat, t: nat)
    requires |states| == |steps| + 1 && k <= |steps|
  {
    exists m :: b < m < k && steps[m] == RenameTemp(t, false) && t in states[m].threads &&
      Temp(states[m].threads[t].tmp) !in states[m].disk.dir
  }

  ghost predicate RightBytes(h: Hash, call: Call, bytes: Bytes) {
    h(bytes) == call.addr && (call.size == 0 || |bytes| == call.size)
  }

  /** Where a fetch is, by what has happened to it. */
  ghost predicate OnCourse(h: Hash, th: Thread, fine: bool, got: Bytes, found: bool, swept: bool) {
    var good := fine && RightBytes(h, th.call, got) && !swept;
    if th.pc.RemoveTmp? then !th.ok && !found && !good
    else if Returning(th.pc) then (th.ok <==> found || good) && (th.ok && !found ==> th.published)
    else
      && !th.ok && fine && !found && !swept
      && (th.pc.SyncPublish? || (if OwnsTemp(th.pc) then th.read == got else got == []))
      && (th.pc.Publish? || th.pc.SyncPublish? ==> RightBytes(h, th.call, got))
  }

  lemma FetchMoves(h: Hash, d: Disk, th: Thread, step: Step, fine: bool, got: Bytes, found: bool, swept: bool)
    requires ThreadOk(th) && !th.call.op.Verify? && IsCallStep(step) && StepAt(th.pc, step)
    requires step.HashBlob? ==> th.ino in d.inodes
    requires OnCourse(h, th, fine, got, found, swept)
    ensures OnCourse(h, NextThread(h, d, th, step), fine && !Fails(step),
      if step.Receive? then got + step.chunk else got,
      found || (Looks(step) && Blob(th.call.addr) in d.dir),
      swept || (step.RenameTemp? && !step.fails && Temp(th.tmp) !in d.dir))
  {
    hide ThreadOk, StepAt, OnCourse, NextThread, Fails, Looks;
    if OwnsTemp(th.pc) {
      DownloadGoes(h, d, th, step, fine, got, found, swept);
    } else {
      ControlGoes(h, d, th, step, fine, got, found, swept);
    }
  }

  lemma DownloadGoes(h: Hash, d: Disk, th: Thread, step: Step, fine: bool, got: Bytes, found: bool, swept: bool)
    requires ThreadOk(th) && !th.call.op.Verify? && IsCallStep(step) && StepAt(th.pc, step)
    requires step.HashBlob? ==> th.ino in d.inodes
    requires OnCourse(h, th, fine, got, found, swept)
    requires OwnsTemp(th.pc)
    ensures OnCourse(h, NextThread(h, d, th, step), fine && !Fails(step),
      if step.Receive? then got + step.chunk else got,
      found || (Looks(step) && Blob(th.call.addr) in d.dir),
      swept || (step.RenameTemp? && !step.fails && Temp(th.tmp) !in d.dir))
  {
  }

  lemma ControlGoes(h: Hash, d: Disk, th: Thread, step: Step, fine: bool, got: Bytes, found: bool, swept: bool)
    requires ThreadOk(th) && !th.call.op.Verify? && IsCallStep(step) && StepAt(th.pc, step)
    requires step.HashBlob? ==> th.ino in d.inodes
    requires OnCourse(h, th, fine, got, found, swept)
    requires !OwnsTemp(th.pc)
    ensures OnCourse(h, NextThread(h, d, th, step), fine && !Fails(step),
      if step.Receive? then got + step.chunk else got,
      found || (Looks(step) && Blob(th.call.addr) in d.dir),
      swept || (step.RenameTemp? && !step.fails && Temp(th.tmp) !in d.dir))
  {
  }

  ghost predicate Course(h: Hash, states: seq<State>, steps: seq<Step>, b: nat, k: nat, t: nat)
    requires |states| == |steps| + 1 && b < k <= |steps| && steps[b].Begin? && t in states[k].threads
  {
    OnCourse(h, states[k].threads[t], Fine(steps, b, k, t), Received(steps, b, k, t),
      FoundBlob(states, steps, b, k, t, steps[b].call.addr), SweptAway(states, steps, b, k, t))
  }

  lemma CourseNext(h: Hash, states: seq<State>, steps: seq<Step>, b: nat, k: nat, t: nat, addr: string)
    requires |states| == |steps| + 1 && b < k < |steps| && t in states[k].threads
    ensures var own := TakenBy(steps[k], t);
      && (Fine(steps, b, k + 1, t) <==> Fine(steps, b, k, t) && !(own && Fails(steps[k])))
      && Received(steps, b, k + 1, t) ==
           (if own && steps[k].Receive? then Received(steps, b, k, t) + steps[k].chunk else Received(steps, b, k, t))
      && (FoundBlob(states, steps, b, k + 1, t, addr) <==>
            FoundBlob(states, steps, b, k, t, addr) || (own && Looks(steps[k]) && Blob(addr) in states[k].disk.dir))
      && (SweptAway(states, steps, b, k + 1, t) <==>
            SweptAway(states, steps, b, k, t) ||
            (own && steps[k].RenameTemp? && !steps[k].fails && Temp(states[k].threads[t].tmp) !in states[k].disk.dir))
  {
    FoundNext(states, steps, b, k, t, addr);
    SweptNext(states, steps, b, k, t);
  }

  lemma FoundNext(states: seq<State>, steps: seq<Step>, b: nat, k: nat, t: nat, addr: string)
    requires |states| == |steps| + 1 && b < k < |steps|
    ensures FoundBlob(states, steps, b, k + 1, t, addr) <==>
      || FoundBlob(states, steps, b, k, t, addr)
      || (TakenBy(steps[k], t) && Looks(steps[k]) && Blob(addr) in states[k].disk.dir)
  {
  }

  lemma SweptNext(states: seq<State>, steps: seq<Step>, b: nat, k: nat, t: nat)
    requires |states| == |steps| + 1 && b < k < |steps| && t in states[k].threads
    ensures SweptAway(states, steps, b, k + 1, t) <==>
      || SweptAway(states, steps, b, k, t)
      || (steps[k] == RenameTemp(t, false) && Temp(states[k].threads[t].tmp) !in states[k].disk.dir)
  {
  }

  lemma {:induction false} FetchCourse(h: Hash, states: seq<State>, steps: seq<Step>, b: nat, k: nat, t: nat)
    requires Execution(h, states, steps) && Since(states, steps, b, k, t) && !steps[b].call.op.Verify?
    ensures Course(h, states, steps, b, k, t)
  {
    hide Enabled, Apply, StepAt, NextThread, ThreadOk, Fine, FoundBlob, SweptAway, Received, OnCourse;
    if k == b + 1 {
      JustBegun(h, states, steps, b, t);
      CourseBegins(h, states, steps, b, t);
    } else {
      var addr := steps[b].call.addr;
      FetchCourse(h, states, steps, b, k - 1, t);
      CallIsKept(h, states, steps, b, k - 1, t);
      OneStep(h, states, steps, k - 1, t);
      CourseNext(h, states, steps, b, k - 1, t, addr);
      if TakenBy(steps[k - 1], t) {
        ThreadRecordOk(h, states, steps, k - 1, t);
        FetchMoves(h, states[k - 1].disk, states[k - 1].threads[t], steps[k - 1], Fine(steps, b, k - 1, t),
          Received(steps, b, k - 1, t), FoundBlob(states, steps, b, k - 1, t, addr),
          SweptAway(states, steps, b, k - 1, t));
      }
    }
  }

  lemma CourseBegins(h: Hash, states: seq<State>, steps: seq<Step>, b: nat, t: nat)
    requires |states| == |steps| + 1 && b < |steps| && steps[b].Begin? && t in states[b + 1].threads
    requires states[b + 1].threads[t] == NewThread(steps[b].call)
    ensures Course(h, states, steps, b, b + 1, t)
  {
  }

  /**
   * A finished Get or Refresh returns without error if and only if one of its looks found a blob, or none of its
   * steps was refused, the server sent the right bytes, and nobody swept the download away; a Refresh never looks.
   */
  lemma FetchOkIff(h: Hash, states: seq<State>, steps: seq<Step>, b: nat, k: nat, t: nat)
    requires Execution(h, states, steps) && Since(states, steps, b, k, t) && !steps[b].call.op.Verify?
    requires states[k].threads[t].pc.Done?
    ensures states[k].threads[t].ok <==>
      || FoundBlob(states, steps, b, k, t, steps[b].call.addr)
      || (&& Fine(steps, b, k, t) && RightBytes(h, steps[b].call, Received(steps, b, k, t))
          && !SweptAway(states, steps, b, k, t))
    ensures steps[b].call.op.Refresh? ==> !FoundBlob(states, steps, b, k, t, steps[b].call.addr)
  {
    hide Enabled, Apply, Fine, SweptAway, Received;
    FetchCourse(h, states, steps, b, k, t);
    CallIsKept(h, states, steps, b, k, t);
    if steps[b].call.op.Refresh? { RefreshNeverLooks(h, states, steps, b, k, t); }
  }

  lemma RefreshNeverLooks(h: Hash, states: seq<State>, steps: seq<Step>, b: nat, k: nat, t: nat)
    requires Execution(h, states, steps) && Since(states, steps, b, k, t) && steps[b].call.op.Refresh?
    ensures forall m :: b < m < k && TakenBy(steps[m], t) ==> !Looks(steps[m])
  {
    hide Apply, ThreadOk, Enabled;
    forall m | b < m < k && TakenBy(steps[m], t) ensures !Looks(steps[m]) {
      CallIsKept(h, states, steps, b, m, t);
      assert Enabled(states[m], steps[m]) && t in states[m].threads;
      OneStep(h, states, steps, m, t);
      ThreadRecordOk(h, states, steps, m, t);
      LooksAreGets(states[m].threads[t], steps[m]);
    }
  }

  lemma LooksAreGets(th: Thread, step: Step)
    requires ThreadOk(th) && IsCallStep(step) && StepAt(th.pc, step)
    ensures Looks(step) ==> th.call.op.Get?
  {
  }

  // --------------------------------------------------------------- looks before a download

  /** The call's last step so far, from where it went to where it is. */
  lemma {:induction false} CameBy(h: Hash, states: seq<State>, steps: seq<Step>, b: nat, k: nat, t: nat)
    returns (i: nat)
    requires Execution(h, states, steps) && Since(states, steps, b, k, t)
    requires states[k].threads[t].pc != NewThread(steps[b].call).pc
    ensures b < i < k && Since(states, steps, b, i, t) && TakenBy(steps[i], t)
    ensures StepAt(states[i].threads[t].pc, steps[i])
    ensures states[k].threads[t].pc == NextPc(h, states[i].disk, states[i].threads[t], steps[i])
    ensures states[i].threads[t].call == steps[b].call
  {
    hide Enabled, Apply, StepAt, NextPc;
    if k == b + 1 { JustBegun(h, states, steps, b, t); }
    assert k > b + 1;
    OneStep(h, states, steps, k - 1, t);
    if TakenBy(steps[k - 1], t) {
      i := k - 1;
      CallIsKept(h, states, steps, b, i, t);
    } else {
      i := CameBy(h, states, steps, b, k - 1, t);
    }
  }

  /** A step of this kind that found nothing at the address. */
  ghost predicate FoundNothing(states: seq<State>, steps: seq<Step>, i: nat, addr: string)
    requires |states| == |steps| + 1
  {
    i < |steps| && Looks(steps[i]) && Blob(addr) !in states[i].disk.dir
  }

  lemma ControlBefore(h: Hash, d: Disk, th: Thread, step: Step)
    requires IsCallStep(step) && StepAt(th.pc, step) && th.call.op.Get?
    ensures var pc := NextPc(h, d, th, step);
      && (pc.Request? ==> step.StatSha? && Blob(th.call.addr) !in d.dir)
      && (pc.ShaStat? ==> step.LockSha?)
      && (pc.WaitSha? ==> step.OpenLock? && !step.fails)
      && (pc.Prepare? ==> step.StatMu? && Blob(th.call.addr) !in d.dir)
      && (pc.MuStat? ==> step.LockMu?)
      && (pc.WaitMu? ==> step.StatFast? && Blob(th.call.addr) !in d.dir)
  {
  }

  lemma Back(h: Hash, states: seq<State>, steps: seq<Step>, b: nat, k: nat, t: nat) returns (i: nat)
    requires Execution(h, states, steps) && Since(states, steps, b, k, t) && steps[b].call.op.Get?
    requires states[k].threads[t].pc != FastStat
    ensures |states| == |steps| + 1 && b < i < k < |states| && Since(states, steps, b, i, t) && TakenBy(steps[i], t)
    ensures StepAt(states[i].threads[t].pc, steps[i])
    ensures var pc, addr := states[k].threads[t].pc, steps[b].call.addr;
      && (pc.Request? ==> steps[i].StatSha? && FoundNothing(states, steps, i, addr))
      && (pc.ShaStat? ==> steps[i].LockSha?)
      && (pc.WaitSha? ==> steps[i].OpenLock? && !steps[i].fails)
      && (pc.Prepare? ==> steps[i].StatMu? && FoundNothing(states, steps, i, addr))
      && (pc.MuStat? ==> steps[i].LockMu?)
      && (pc.WaitMu? ==> steps[i].StatFast? && FoundNothing(states, steps, i, addr))
  {
    hide Enabled, Apply, NextPc;
    i := CameBy(h, states, steps, b, k, t);
    ControlBefore(h, states[i].disk, states[i].threads[t], steps[i]);
  }

  /**
   * A Get that downloads has looked three times in vain: before anything else, after taking its mutex, and after
   * taking the lock of its address.
   */
  lemma LooksBeforeDownload(h: Hash, states: seq<State>, steps: seq<Step>, b: nat, k: nat, t: nat)
    returns (first: nat, mu: nat, second: nat, sha: nat, third: nat)
    requires Execution(h, states, steps) && Since(states, steps, b, k, t) && steps[b].call.op.Get?
    requires states[k].threads[t].pc.Request?
    ensures b < first < mu < second < sha < third < k
    ensures steps[first] == StatFast(t) && FoundNothing(states, steps, first, steps[b].call.addr)
    ensures steps[mu] == LockMu(t) && steps[second] == StatMu(t)
    ensures FoundNothing(states, steps, second, steps[b].call.addr)
    ensures steps[sha] == LockSha(t) && steps[third] == StatSha(t)
    ensures FoundNothing(states, steps, third, steps[b].call.addr)
  {
    hide Execution, Since, FoundNothing;
    SinceShrinksNot(h, states, steps, b, k, t);
    third := Back(h, states, steps, b, k, t);
    sha := Back(h, states, steps, b, third, t);
    var open := Back(h, states, steps, b, sha, t);
    second := Back(h, states, steps, b, open, t);
    mu := Back(h, states, steps, b, second, t);
    first := Back(h, states, steps, b, mu, t);
  }

  lemma SinceShrinksNot(h: Hash, states: seq<State>, steps: seq<Step>, b: nat, k: nat, t: nat)
    requires Execution(h, states, steps) && Since(states, steps, b, k, t)
    ensures |states| == |steps| + 1 && b < k < |states|
  {
    hide Enabled, Apply;
  }

  /** At step `m` the call renames its download to its address, with these bytes. */
  ghost predicate Places(states: seq<State>, steps: seq<Step>, m: nat, t: nat, addr: string, bytes: Bytes)
    requires |states| == |steps| + 1
  {
    && m < |steps| && steps[m] == RenameTemp(t, false)
    && Blob(addr) in states[m + 1].disk.dir && var f := states[m + 1].disk.dir[Blob(addr)];
    && f in states[m + 1].disk.inodes && states[m + 1].disk.inodes[f].synced
    && (states[m + 1].disk.inodes[f].tainted || states[m + 1].disk.inodes[f].data == bytes)
  }

  lemma RenamePlaces(h: Hash, states: seq<State>, steps: seq<Step>, m: nat, t: nat)
    requires Execution(h, states, steps) && m < |steps| && steps[m] == RenameTemp(t, false)
    requires t in states[m].threads && Temp(states[m].threads[t].tmp) in states[m].disk.dir
    ensures Places(states, steps, m, t, states[m].threads[t].call.addr, states[m].threads[t].read)
  {
    hide Inv, WriterOk, DiskOk, Perform, NextThread, Events;
    var d, th := states[m].disk, states[m].threads[t];
    assert Enabled(states[m], steps[m]) && states[m + 1] == Apply(h, states[m], steps[m]);
    WriterInOrder(h, states, steps, m, t);
    MovePlaces(h, d, th);
  }

  lemma WriterInOrder(h: Hash, states: seq<State>, steps: seq<Step>, m: nat, t: nat)
    requires Execution(h, states, steps) && m < |states| && t in states[m].threads
    ensures WriterOk(h, states[m].disk, states[m].threads[t])
  {
    InvAlways(h, states, steps, m);
  }

  lemma MovePlaces(h: Hash, d: Disk, th: Thread)
    requires WriterOk(h, d, th) && th.pc.Publish? && Temp(th.tmp) in d.dir
    ensures var d' := Perform(d, Move(Temp(th.tmp), Blob(th.call.addr)));
      && Lookup(d'.dir, Blob(th.call.addr)) == Some(th.ino) && th.ino in d'.inodes && d'.inodes[th.ino].synced
      && (d'.inodes[th.ino].tainted || d'.inodes[th.ino].data == th.read)
  {
  }

  lemma PublishedNext(h: Hash, d: Disk, th: Thread, step: Step)
    requires ThreadOk(th) && IsCallStep(step) && StepAt(th.pc, step)
    requires step.HashBlob? ==> th.ino in d.inodes
    ensures NextThread(h, d, th, step).published && !th.published ==>
      step.RenameTemp? && !step.fails && th.pc.Publish? && Temp(th.tmp) in d.dir
    ensures th.published ==> !step.Receive?
  {
  }

  /** A call that has published did rename, at step `m`, a file with exactly the bytes the server sent. */
  lemma {:induction false} PublishedPlaces(h: Hash, states: seq<State>, steps: seq<Step>, b: nat, k: nat, t: nat)
    returns (m: nat)
    requires Execution(h, states, steps) && Since(states, steps, b, k, t) && !steps[b].call.op.Verify?
    requires states[k].threads[t].published
    ensures b < m < k && Places(states, steps, m, t, steps[b].call.addr, Received(steps, b, k, t))
  {
    hide Enabled, Apply, StepAt, NextThread, ThreadOk, Places, Fine, FoundBlob, SweptAway;
    if k == b + 1 { JustBegun(h, states, steps, b, t); }
    assert k > b + 1;
    CallIsKept(h, states, steps, b, k - 1, t);
    OneStep(h, states, steps, k - 1, t);
    ThreadRecordOk(h, states, steps, k - 1, t);
    if TakenBy(steps[k - 1], t) { PublishedNext(h, states[k - 1].disk, states[k - 1].threads[t], steps[k - 1]); }
    if states[k - 1].threads[t].published {
      m := PublishedPlaces(h, states, steps, b, k - 1, t);
    } else {
      m := k - 1;
      FetchCourse(h, states, steps, b, m, t);
      RenamePlaces(h, states, steps, m, t);
    }
  }

  /** A Get or Refresh that returns without error, having found no blob, has put what the server sent in place. */
  lemma FetchPlaces(h: Hash, states: seq<State>, steps: seq<Step>, b: nat, k: nat, t: nat) returns (m: nat)
    requires Execution(h, states, steps) && Since(states, steps, b, k, t) && !steps[b].call.op.Verify?
    requires states[k].threads[t].pc.Done? && states[k].threads[t].ok
    requires !FoundBlob(states, steps, b, k, t, steps[b].call.addr)
    ensures b < m < k && Places(states, steps, m, t, steps[b].call.addr, Received(steps, b, k, t))
    ensures RightBytes(h, steps[b].call, Received(steps, b, k, t))
  {
    hide Enabled, Apply, Fine, FoundBlob, SweptAway, Received, Places;
    FetchCourse(h, states, steps, b, k, t);
    CallIsKept(h, states, steps, b, k, t);
    m := PublishedPlaces(h, states, steps, b, k, t);
  }

  // ---------------------------------------------------------------- what a failed fetch leaves

  /** After step `i` the call has tried to remove its download; if that was not refused, it is gone. */
  ghost predicate CleanedUp(states: seq<State>, steps: seq<Step>, i: nat, k: nat, t: nat, serial: nat)
    requires |states| == |steps| + 1 && k <= |steps|
  {
    exists m :: i < m < k && (steps[m] == UnlinkTemp(t, true) ||
      (steps[m] == UnlinkTemp(t, false) && Temp(serial) !in states[m + 1].disk.dir))
  }

  ghost predicate WithDownload(states: seq<State>, steps: seq<Step>, i: nat, k: nat, t: nat, serial: nat)
    requires |states| == |steps| + 1 && k <= |steps|
  {
    && t in states[k].threads && var th := states[k].threads[t];
    && th.tmp == serial
    && (OwnsTemp(th.pc) || th.pc.RemoveTmp? ||
        ((th.pc.SyncPublish? || Returning(th.pc)) && (th.published || CleanedUp(states, steps, i, k, t, serial))))
  }

  lemma DownloadMoves(h: Hash, d: Disk, th: Thread, step: Step)
    requires ThreadOk(th) && IsCallStep(step) && StepAt(th.pc, step)
    requires step.HashBlob? ==> th.ino in d.inodes
    requires OwnsTemp(th.pc) || th.pc.RemoveTmp? || th.pc.SyncPublish? || Returning(th.pc)
    ensures var th' := NextThread(h, d, th, step);
      && th'.tmp == th.tmp && (th.published ==> th'.published)
      && (OwnsTemp(th.pc) ==> OwnsTemp(th'.pc) || th'.pc.RemoveTmp? || (th'.pc.SyncPublish? && th'.published))
      && (th.pc.RemoveTmp? ==> step.UnlinkTemp? && Returning(th'.pc))
      && (th.pc.SyncPublish? || Returning(th.pc) ==> Returning(th'.pc))
  {
  }

  lemma UnlinkRemoves(h: Hash, states: seq<State>, steps: seq<Step>, k: nat, t: nat)
    requires Execution(h, states, steps) && k < |steps| && steps[k] == UnlinkTemp(t, false) && t in states[k].threads
    ensures Temp(states[k].threads[t].tmp) !in states[k + 1].disk.dir
  {
    hide NextThread, Events;
    assert Enabled(states[k], steps[k]) && states[k + 1] == Apply(h, states[k], steps[k]);
  }

  lemma CleanedNext(states: seq<State>, steps: seq<Step>, i: nat, k: nat, t: nat, serial: nat)
    requires |states| == |steps| + 1 && i < k < |steps|
    ensures CleanedUp(states, steps, i, k, t, serial) ==> CleanedUp(states, steps, i, k + 1, t, serial)
    ensures steps[k] == UnlinkTemp(t, true) ==> CleanedUp(states, steps, i, k + 1, t, serial)
    ensures steps[k] == UnlinkTemp(t, false) && Temp(serial) !in states[k + 1].disk.dir ==>
      CleanedUp(states, steps, i, k + 1, t, serial)
  {
  }

  lemma DownloadNext(h: Hash, states: seq<State>, steps: seq<Step>, i: nat, k: nat, t: nat, serial: nat)
    requires Execution(h, states, steps) && i < k < |steps| && WithDownload(states, steps, i, k, t, serial)
    requires t in states[k + 1].threads
    ensures WithDownload(states, steps, i, k + 1, t, serial)
  {
    hide Enabled, Apply, StepAt, NextThread, ThreadOk, CleanedUp;
    OneStep(h, states, steps, k, t);
    CleanedNext(states, steps, i, k, t, serial);
    if TakenBy(steps[k], t) {
      ThreadRecordOk(h, states, steps, k, t);
      DownloadMoves(h, states[k].disk, states[k].threads[t], steps[k]);
      if steps[k] == UnlinkTemp(t, false) { UnlinkRemoves(h, states, steps, k, t); }
    }
  }

  /**
   * A fetch that has created a download does not return without having published it or removed it, unless the host
   * refuses the removal.
   */
  lemma {:induction false} NoDebris(h: Hash, states: seq<State>, steps: seq<Step>, i: nat, k: nat, t: nat, serial: nat)
    requires Execution(h, states, steps) && i < k < |states| && steps[i] == MakeTemp(t, serial, false)
    requires forall m :: i <= m <= k ==> t in states[m].threads
    ensures WithDownload(states, steps, i, k, t, serial)
    ensures states[k].threads[t].pc.Done? && !states[k].threads[t].published ==>
      CleanedUp(states, steps, i, k, t, serial)
  {
    hide Enabled, Apply, StepAt, NextThread, CleanedUp;
    if k == i + 1 {
      OneStep(h, states, steps, i, t);
      DownloadBegins(h, states[i].disk, states[i].threads[t], steps[i]);
    } else {
      NoDebris(h, states, steps, i, k - 1, t, serial);
      DownloadNext(h, states, steps, i, k - 1, t, serial);
    }
  }

  lemma DownloadBegins(h: Hash, d: Disk, th: Thread, step: Step)
    requires step.MakeTemp? && !step.fails && StepAt(th.pc, step)
    ensures OwnsTemp(NextThread(h, d, th, step).pc) && NextThread(h, d, th, step).tmp == step.serial
  {
  }

  /** The call has or had a download of its own. */
  predicate HasTemp(pc: Pc) { OwnsTemp(pc) || pc.RemoveTmp? || pc.SyncPublish? }

  lemma TempMoves(h: Hash, d: Disk, th: Thread, step: Step)
    requires IsCallStep(step) && StepAt(th.pc, step)
    requires step.HashBlob? ==> th.ino in d.inodes
    requires HasTemp(NextThread(h, d, th, step).pc)
    ensures (step.MakeTemp? && !step.fails && NextThread(h, d, th, step).tmp == step.serial) ||
      (HasTemp(th.pc) && NextThread(h, d, th, step).tmp == th.tmp)
  {
  }

  /** A call renames and removes only a download that it has created itself. */
  lemma {:induction false} OwnDownloadOnly(h: Hash, states: seq<State>, steps: seq<Step>, b: nat, k: nat, t: nat)
    returns (i: nat)
    requires Execution(h, states, steps) && Since(states, steps, b, k, t) && HasTemp(states[k].threads[t].pc)
    ensures b < i < k && steps[i] == MakeTemp(t, states[k].threads[t].tmp, false)
  {
    hide Enabled, Apply, StepAt, NextThread;
    if k == b + 1 { JustBegun(h, states, steps, b, t); }
    assert k > b + 1;
    OneStep(h, states, steps, k - 1, t);
    if TakenBy(steps[k - 1], t) { TempMoves(h, states[k - 1].disk, states[k - 1].threads[t], steps[k - 1]); }
    if steps[k - 1] == MakeTemp(t, states[k].threads[t].tmp, false) {
      i := k - 1;
    } else {
      i := OwnDownloadOnly(h, states, steps, b, k - 1, t);
    }
  }

  /** A call is where it may rename or remove its download exactly when it takes such a step. */
  lemma TempStepsAt(pc: Pc, step: Step)
    requires IsCallStep(step) && StepAt(pc, step) && (step.UnlinkTemp? || step.RenameTemp?)
    ensures HasTemp(pc)
  {
  }

  /** What each step adds to the log: publications, removals by Verify, power losses, and nothing else. */
  lemma LogTells(h: Hash, states: seq<State>, steps: seq<Step>, k: nat)
    requires Execution(h, states, steps) && k < |steps|
    ensures var s, step := states[k], steps[k];
      states[k + 1].log == s.log +
        if step.PowerLoss? then [PowerCut]
        else if step.RenameTemp? && step.t in s.threads && !step.fails && Temp(s.threads[step.t].tmp) in s.disk.dir
        then [Published(s.threads[step.t].call.op, s.threads[step.t].call.addr)]
        else if (step.RenameAside? || step.UnlinkDrifted?) && step.t in s.threads && !step.fails &&
          Blob(s.threads[step.t].call.addr) in s.disk.dir
        then [Removed(s.threads[step.t].call.addr)]
        else []
  {
    hide NextThread, Perform, EffectOf;
    assert Enabled(states[k], steps[k]) && states[k + 1] == Apply(h, states[k], steps[k]);
    assert states[k].log + [] == states[k].log;
  }

  // -------------------------------------------------------------------- removals that stay

  /** The call is between its removal and the directory fsync. */
  ghost predicate Syncing(states: seq<State>, k: nat, t: nat, addr: string)
    requires k < |states|
  {
    t in states[k].threads && states[k].threads[t].pc.SyncRemoval? && states[k].threads[t].call.addr == addr
  }

  lemma {:induction false} StaysEmpty(h: Hash, states: seq<State>, steps: seq<Step>, m: nat, k: nat, t: nat,
                                      addr: string)
    requires Execution(h, states, steps) && m <= k < |states| && Blob(addr) !in states[m].disk.dir
    requires forall i :: m <= i <= k ==> Syncing(states, i, t, addr)
    ensures Blob(addr) !in states[k].disk.dir
  {
    hide Enabled, Apply, Syncing;
    if m == k {
    } else {
      StaysEmpty(h, states, steps, m, k - 1, t, addr);
      EmptyNext(h, states, steps, k - 1, t, addr);
    }
  }

  lemma EmptyNext(h: Hash, states: seq<State>, steps: seq<Step>, k: nat, t: nat, addr: string)
    requires Execution(h, states, steps) && k < |steps| && Blob(addr) !in states[k].disk.dir
    requires Syncing(states, k, t, addr) && Syncing(states, k + 1, t, addr)
    ensures Blob(addr) !in states[k + 1].disk.dir
  {
    assert Enabled(states[k], steps[k]) && states[k + 1] == Apply(h, states[k], steps[k]);
    assert !steps[k].PowerLoss?;
    hide Apply;
    OnlyTwoWaysToChange(h, states, steps, k, addr);
    if ReplacedByFetch(h, states[k], steps[k], states[k + 1], addr) {
      SectionsAreExclusive(h, states, steps, k, t, steps[k].t);
    }
  }

  lemma {:induction false} SyncingSince(h: Hash, states: seq<State>, steps: seq<Step>, m: nat, k: nat, t: nat)
    requires Execution(h, states, steps) && m < k < |states|
    requires steps[m] == RenameAside(t, false) || steps[m] == UnlinkDrifted(t, false)
    requires forall i :: m <= i <= k ==> t in states[i].threads
    requires forall i :: m < i < k ==> !TakenBy(steps[i], t)
    ensures Syncing(states, k, t, states[m].threads[t].call.addr)
  {
    hide Enabled, Apply, StepAt, NextThread;
    OneStep(h, states, steps, k - 1, t);
    if k == m + 1 {
      RemovalEmpties(h, states, steps, m, t);
      RemovalMoves(h, states[m].disk, states[m].threads[t], steps[m]);
    } else {
      SyncingSince(h, states, steps, m, k - 1, t);
    }
  }

  lemma RemovalMoves(h: Hash, d: Disk, th: Thread, step: Step)
    requires (step.RenameAside? || step.UnlinkDrifted?) && !step.fails && StepAt(th.pc, step)
    requires Blob(th.call.addr) in d.dir
    ensures NextThread(h, d, th, step).pc.SyncRemoval? && NextThread(h, d, th, step).call == th.call
  {
  }

  /**
   * What Verify has removed at step `m` stays removed: after its directory fsync, the call's next step, the address is
   * empty, and no power loss can bring a file back to it.
   */
  lemma RemovalIsDurable(h: Hash, states: seq<State>, steps: seq<Step>, m: nat, k: nat, t: nat)
    requires Execution(h, states, steps) && m < k < |steps| && steps[k] == FsyncRemoval(t, false)
    requires steps[m] == RenameAside(t, false) || steps[m] == UnlinkDrifted(t, false)
    requires forall i :: m <= i <= k ==> t in states[i].threads
    requires forall i :: m < i < k ==> !TakenBy(steps[i], t)
    ensures var addr := states[m].threads[t].call.addr;
      && Blob(addr) !in states[k + 1].disk.dir
      && forall v :: (Blob(addr), v) in states[k + 1].disk.possible ==> v == None
  {
    hide Enabled, Apply, Syncing;
    var addr := states[m].threads[t].call.addr;
    RemovalEmpties(h, states, steps, m, t);
    forall i | m < i <= k ensures Syncing(states, i, t, addr) { SyncingSince(h, states, steps, m, i, t); }
    StaysEmpty(h, states, steps, m + 1, k, t, addr);
    FsyncFlushes(h, states, steps, k, t);
  }

  lemma FsyncFlushes(h: Hash, states: seq<State>, steps: seq<Step>, k: nat, t: nat)
    requires Execution(h, states, steps) && k < |steps| && steps[k] == FsyncRemoval(t, false)
    ensures states[k + 1].disk == Flush(states[k].disk)
  {
    hide NextThread, Events;
    assert Enabled(states[k], steps[k]) && states[k + 1] == Apply(h, states[k], steps[k]);
  }

  // ------------------------------------------------------------------------------- waiting

  function FirstEight(addr: string): string { if |addr| > 8 then addr[..8] else addr }

  /**
   * A call waits for the lock of its address exactly while another holds one for an address with the same first eight
   * characters, and for its mutex exactly while a call of the same process for the same image holds it.
   */
  lemma WaitsIff(h: Hash, states: seq<State>, steps: seq<Step>, k: nat, t: nat)
    requires Execution(h, states, steps) && k < |states| && t in states[k].threads
    ensures var s, th := states[k], states[k].threads[t];
      && (th.pc.WaitSha? ==>
            (Enabled(s, LockSha(t)) <==> forall u <- s.threads :: HoldsSha(s.threads[u].pc) ==>
              FirstEight(s.threads[u].call.addr) != FirstEight(th.call.addr)))
      && (th.pc.WaitMu? ==>
            (Enabled(s, LockMu(t)) <==> forall u <- s.threads :: HoldsMu(s.threads[u].pc) ==>
              s.threads[u].call.inst != th.call.inst || s.threads[u].call.id != th.call.id))
  {
    InvAlways(h, states, steps, k);
    hide Inv;
    LocksInOrder(h, states[k]);
    WaitsAt(states[k], t);
  }

  lemma LocksInOrder(h: Hash, s: State)
    requires Inv(h, s)
    ensures MuOk(s) && ShaOk(s)
  {
    hide DiskOk, WritersOk, SectionsOk, LogOk, ThreadsOk;
  }

  lemma WaitsAt(s: State, t: nat)
    requires MuOk(s) && ShaOk(s) && t in s.threads
    ensures var th := s.threads[t];
      && (th.pc.WaitSha? ==>
            (Enabled(s, LockSha(t)) <==> forall u <- s.threads :: HoldsSha(s.threads[u].pc) ==>
              FirstEight(s.threads[u].call.addr) != FirstEight(th.call.addr)))
      && (th.pc.WaitMu? ==>
            (Enabled(s, LockMu(t)) <==> forall u <- s.threads :: HoldsMu(s.threads[u].pc) ==>
              s.threads[u].call.inst != th.call.inst || s.threads[u].call.id != th.call.id))
  {
    var th := s.threads[t];
    if th.pc.WaitSha? && LockKey(th.call.addr) in s.sha {
      var u := s.sha[LockKey(th.call.addr)];
      assert u in s.threads && HoldsSha(s.threads[u].pc);
    }
    if th.pc.WaitMu? && MuKey(th) in s.mu {
      var u := s.mu[MuKey(th)];
      assert u in s.threads && HoldsMu(s.threads[u].pc);
    }
  }
}
