/** What the image store promises, over every execution of the protocol. */
module StoreTheorems {
  import opened Prelude
  import opened StoreNames
  import opened StoreProtocol
  import opened StoreInvariants

  // ------------------------------------------------------------------------- integrity

  /** Any file found at a blob address hashes to that address, unless an outside step changed it. */
  lemma BlobsAreSound(h: Hash, states: seq<State>, steps: seq<Step>, k: nat, a: string)
    requires Execution(h, states, steps) && k < |states|
    requires Blob(a) in states[k].disk.dir
    ensures var d := states[k].disk;
      d.dir[Blob(a)] in d.inodes && Sound(h, d.inodes[d.dir[Blob(a)]], a)
  {
    InvAlways(h, states, steps, k);
    assert (Blob(a), Lookup(states[k].disk.dir, Blob(a))) in states[k].disk.possible;
  }

  /** The same holds of whatever a power loss, at any moment, leaves behind. */
  lemma RecoveredBlobsAreSound(h: Hash, states: seq<State>, steps: seq<Step>, k: nat,
                               survivors: map<Name, nat>, garbage: map<nat, Bytes>, a: string)
    requires Execution(h, states, steps) && k < |states|
    requires Enabled(states[k], PowerLoss(survivors, garbage)) && Blob(a) in survivors
    ensures var d := AfterPowerLoss(states[k].disk, survivors, garbage);
      d.dir[Blob(a)] in d.inodes && Sound(h, d.inodes[d.dir[Blob(a)]], a)
  {
    InvAlways(h, states, steps, k);
    assert (Blob(a), Lookup(survivors, Blob(a))) in states[k].disk.possible;
  }

  lemma {:induction false} NothingTampered(h: Hash, states: seq<State>, steps: seq<Step>, k: nat)
    requires Execution(h, states, steps) && k < |states|
    requires forall i <- states[0].disk.inodes :: !states[0].disk.inodes[i].tainted
    requires forall m :: 0 <= m < k ==> !steps[m].BitRot?
    ensures forall i <- states[k].disk.inodes :: !states[k].disk.inodes[i].tainted
  {
    if k == 0 {
    } else {
      NothingTampered(h, states, steps, k - 1);
      var s, step := states[k - 1], steps[k - 1];
      if IsCallStep(step) {
        var e := EffectOf(s.disk, s.threads[step.t], step);
        assert states[k].disk == Perform(s.disk, e);
      }
    }
  }

  /** Without outside interference every blob's bytes hash to its address, power loss or not. */
  lemma UntamperedBlobsMatch(h: Hash, states: seq<State>, steps: seq<Step>, k: nat, a: string)
    requires Execution(h, states, steps) && k < |states| && Blob(a) in states[k].disk.dir
    requires forall i <- states[0].disk.inodes :: !states[0].disk.inodes[i].tainted
    requires forall m :: 0 <= m < k ==> !steps[m].BitRot?
    ensures states[k].disk.dir[Blob(a)] in states[k].disk.inodes
    ensures h(states[k].disk.inodes[states[k].disk.dir[Blob(a)]].data) == a
  {
    BlobsAreSound(h, states, steps, k, a);
    NothingTampered(h, states, steps, k);
  }

  // --------------------------------------------------------------- who may change an address

  /** The call fetches, and what it has read is verified. */
  ghost predicate FetchedBy(h: Hash, th: Thread) {
    !th.call.op.Verify? && h(th.read) == th.call.addr && (th.call.size == 0 || |th.read| == th.call.size)
  }

  /** Short of a power loss, an address changes in two ways only, both under its lock. */
  ghost predicate ReplacedByFetch(h: Hash, s: State, step: Step, s': State, a: string) {
    && step.RenameTemp? && step.t in s.threads
    && var th := s.threads[step.t];
      && th.call.addr == a && FetchedBy(h, th)
      && Lookup(s'.disk.dir, Blob(a)) == Some(th.ino)
  }

  ghost predicate RemovedByVerify(h: Hash, s: State, step: Step, s': State, a: string) {
    && (step.RenameAside? || step.UnlinkDrifted?) && step.t in s.threads
    && var th := s.threads[step.t];
      && th.call.addr == a && th.call.op.Verify? && h(th.read) != a
      && Lookup(s.disk.dir, Blob(a)) == Some(th.ino)
      && Lookup(s'.disk.dir, Blob(a)) == None
  }

  /** A step that leaves the entry alone, together with what the disk remembers of it. */
  ghost predicate Spares(e: Effect, n: Name) {
    && (e.Unlink? ==> e.name != n)
    && (e.Move? ==> e.from != n && e.to != n)
    && (e.Create? ==> n != Temp(e.serial))
  }

  lemma SparedName(d: Disk, e: Effect, n: Name)
    requires CanPerform(d, e) && Spares(e, n)
    ensures Lookup(Perform(d, e).dir, n) == Lookup(d.dir, n)
  {
  }

  lemma EffectOnBlob(h: Hash, d: Disk, th: Thread, step: Step, a: string)
    requires Ready(h, d, th, step) && CanPerform(d, EffectOf(d, th, step))
    requires !Spares(EffectOf(d, th, step), Blob(a))
    ensures th.call.addr == a
    ensures var cur, then_ := Lookup(d.dir, Blob(a)), Lookup(Perform(d, EffectOf(d, th, step)).dir, Blob(a));
      || (step.RenameTemp? && FetchedBy(h, th) && then_ == Some(th.ino))
      || ((step.RenameAside? || step.UnlinkDrifted?) && th.call.op.Verify? && h(th.read) != a &&
          cur == Some(th.ino) && then_ == None)
  {
    if step.RenameTemp? && Succeeds(d, th, step) {
      assert (Temp(th.tmp), Lookup(d.dir, Temp(th.tmp))) in d.possible;
    }
  }

  lemma BlobUntouched(h: Hash, s: State, step: Step, a: string)
    requires Enabled(s, step) && !IsCallStep(step) && !step.PowerLoss?
    ensures Lookup(s.disk.dir, Blob(a)) == Lookup(Apply(h, s, step).disk.dir, Blob(a))
  {
  }

  lemma BlobChanges(h: Hash, s: State, step: Step, s': State, a: string)
    requires IsCallStep(step) && step.t in s.threads ==> Ready(h, s.disk, s.threads[step.t], step)
    requires Enabled(s, step) && !step.PowerLoss? && s' == Apply(h, s, step)
    ensures
      || ReplacedByFetch(h, s, step, s', a) || RemovedByVerify(h, s, step, s', a)
      || (Lookup(s.disk.dir, Blob(a)) == Lookup(s'.disk.dir, Blob(a)) &&
          (IsCallStep(step) ==> Spares(EffectOf(s.disk, s.threads[step.t], step), Blob(a))))
  {
    if IsCallStep(step) {
      var e := EffectOf(s.disk, s.threads[step.t], step);
      if Spares(e, Blob(a)) { SparedName(s.disk, e, Blob(a)); }
      else { EffectOnBlob(h, s.disk, s.threads[step.t], step, a); }
    } else {
      BlobUntouched(h, s, step, a);
    }
  }

  /**
   * In every execution, a step short of a power loss changes at most the address of its own call, and only in those
   * two ways.
   */
  lemma OnlyTwoWaysToChange(h: Hash, states: seq<State>, steps: seq<Step>, k: nat, a: string)
    requires Execution(h, states, steps) && k < |steps| && !steps[k].PowerLoss?
    ensures
      || Lookup(states[k].disk.dir, Blob(a)) == Lookup(states[k + 1].disk.dir, Blob(a))
      || ReplacedByFetch(h, states[k], steps[k], states[k + 1], a)
      || RemovedByVerify(h, states[k], steps[k], states[k + 1], a)
  {
    InvAlways(h, states, steps, k);
    if IsCallStep(steps[k]) { ReadyToStep(h, states[k], steps[k]); }
    BlobChanges(h, states[k], steps[k], states[k + 1], a);
  }

  /** In every execution, two calls that hold the lock of one address are the same call. */
  lemma SectionsAreExclusive(h: Hash, states: seq<State>, steps: seq<Step>, k: nat, t: nat, u: nat)
    requires Execution(h, states, steps) && k < |states| && t in states[k].threads && u in states[k].threads
    requires HoldsSha(states[k].threads[t].pc) && HoldsSha(states[k].threads[u].pc)
    requires states[k].threads[t].call.addr == states[k].threads[u].call.addr
    ensures t == u
  {
    InvAlways(h, states, steps, k);
    MutualExclusion(states[k], t, u);
  }

  lemma BlobKeptByStep(h: Hash, states: seq<State>, steps: seq<Step>, m: nat, a: string)
    requires Execution(h, states, steps) && m < |steps| && !steps[m].PowerLoss?
    requires !RemovedByVerify(h, states[m], steps[m], states[m + 1], a)
    requires Blob(a) in states[m].disk.dir
    ensures Blob(a) in states[m + 1].disk.dir
  {
    OnlyTwoWaysToChange(h, states, steps, m, a);
  }

  /**
   * Whatever fails in Get or Refresh, an address that held a blob holds one for as long as no
   * Verify removes it: over any stretch of an execution without a power loss.
   */
  lemma {:induction false} BlobOutlivesFailures(h: Hash, states: seq<State>, steps: seq<Step>, i: nat, j: nat,
                                                a: string)
    requires Execution(h, states, steps) && i <= j < |states|
    requires forall m :: i <= m < j ==> !steps[m].PowerLoss?
    requires forall m :: i <= m < j ==> !RemovedByVerify(h, states[m], steps[m], states[m + 1], a)
    requires Blob(a) in states[i].disk.dir
    ensures Blob(a) in states[j].disk.dir
  {
    if i == j {
    } else {
      BlobOutlivesFailures(h, states, steps, i, j - 1, a);
      BlobKeptByStep(h, states, steps, j - 1, a);
    }
  }

  /**
   * A Get or Refresh about to return an error, still inside its address lock: the address
   * holds what it held when the lock was taken, except after a failed directory fsync, when
   * it holds the newly verified file.
   */
  lemma FailedFetchKeepsBlob(h: Hash, states: seq<State>, steps: seq<Step>, k: nat, t: nat)
    requires Execution(h, states, steps) && k < |states| && t in states[k].threads
    requires states[k].threads[t].pc.ReleaseSha? && !states[k].threads[t].call.op.Verify? && !states[k].threads[t].ok
    ensures var th, d := states[k].threads[t], states[k].disk;
      && (!th.syncFailed ==> Lookup(d.dir, Blob(th.call.addr)) == th.before)
      && (th.syncFailed ==>
            Lookup(d.dir, Blob(th.call.addr)) == Some(th.ino) && th.ino in d.inodes &&
            d.inodes[th.ino].synced && Sound(h, d.inodes[th.ino], th.call.addr))
  {
    InvAlways(h, states, steps, k);
    var th, d := states[k].threads[t], states[k].disk;
    assert (Blob(th.call.addr), Lookup(d.dir, Blob(th.call.addr))) in d.possible;
  }

  // ----------------------------------------------------------- Verify removes what it hashed

  /** The calls that have read a blob and found it drifted. */
  predicate Drifted(pc: Pc) { pc.Probe? || pc.MoveAside? || pc.RemoveDrifted? }

  lemma DriftControl(h: Hash, d: Disk, th: Thread, step: Step)
    requires IsCallStep(step) && StepAt(th.pc, step)
    requires step.HashBlob? ==> th.ino in d.inodes
    requires Drifted(NextThread(h, d, th, step).pc)
    ensures NextThread(h, d, th, step).call == th.call && NextThread(h, d, th, step).ino == th.ino
    ensures step.HashBlob? ==> !step.fails && NextThread(h, d, th, step).read == d.inodes[th.ino].data
    ensures !step.HashBlob? ==> Drifted(th.pc) && NextThread(h, d, th, step).read == th.read
  {
  }

  lemma DriftStep(h: Hash, s: State, step: Step, s': State, t: nat)
    requires Enabled(s, step) && s' == Apply(h, s, step)
    requires t in s'.threads && Drifted(s'.threads[t].pc)
    ensures t in s.threads && s.threads[t].call == s'.threads[t].call && s.threads[t].ino == s'.threads[t].ino
    ensures if step == HashBlob(t, false)
      then s.threads[t].pc.ReadBlob? && s.threads[t].ino in s.disk.inodes &&
           s'.threads[t].read == s.disk.inodes[s.threads[t].ino].data
      else Drifted(s.threads[t].pc) && s.threads[t].read == s'.threads[t].read
  {
    if IsCallStep(step) && step.t == t {
      DriftControl(h, s.disk, s.threads[t], step);
    }
  }

  lemma JudgedBlobInPlace(h: Hash, states: seq<State>, steps: seq<Step>, k: nat, t: nat)
    requires Execution(h, states, steps) && k < |states| && t in states[k].threads
    requires Judging(states[k].threads[t].pc)
    ensures var th := states[k].threads[t];
      && Lookup(states[k].disk.dir, Blob(th.call.addr)) == Some(th.ino)
      && (Drifted(th.pc) ==> h(th.read) != th.call.addr)
      && (th.pc.MoveAside? ==> Sidecar(th.call.addr, th.pc.version) !in states[k].disk.dir)
  {
    InvAlways(h, states, steps, k);
  }

  /**
   * A Verify that has judged a blob drifted did hash, at some earlier moment `j`, the very file
   * that has been at the address ever since.
   */
  lemma {:induction false} DriftWitness(h: Hash, states: seq<State>, steps: seq<Step>, k: nat, t: nat) returns (j: nat)
    requires Execution(h, states, steps) && k < |states| && t in states[k].threads
    requires Drifted(states[k].threads[t].pc)
    ensures j < k && steps[j] == HashBlob(t, false) && t in states[j].threads
    ensures var th := states[k].threads[t];
      && (forall m :: j <= m <= k ==> Lookup(states[m].disk.dir, Blob(th.call.addr)) == Some(th.ino))
      && th.ino in states[j].disk.inodes && states[j].disk.inodes[th.ino].data == th.read
  {
    JudgedBlobInPlace(h, states, steps, k, t);
    assert k > 0;
    DriftStep(h, states[k - 1], steps[k - 1], states[k], t);
    if steps[k - 1] == HashBlob(t, false) {
      JudgedBlobInPlace(h, states, steps, k - 1, t);
      j := k - 1;
    } else {
      j := DriftWitness(h, states, steps, k - 1, t);
    }
  }

  /**
   * The file that Verify moves aside or removes is the one it hashed and found wrong, never one
   * published in between, and moving it aside takes over no existing sidecar.
   */
  lemma VerifyRemovesWhatItHashed(h: Hash, states: seq<State>, steps: seq<Step>, k: nat) returns (j: nat)
    requires Execution(h, states, steps) && k < |steps|
    requires steps[k].RenameAside? || steps[k].UnlinkDrifted?
    requires Succeeds(states[k].disk, states[k].threads[steps[k].t], steps[k])
    ensures var t := steps[k].t; var th, d, d' := states[k].threads[t], states[k].disk, states[k + 1].disk;
      var a := th.call.addr;
      && j < k && steps[j] == HashBlob(t, false)
      && (forall m :: j <= m <= k ==> Lookup(states[m].disk.dir, Blob(a)) == Some(th.ino))
      && th.ino in states[j].disk.inodes && h(states[j].disk.inodes[th.ino].data) != a
      && Lookup(d'.dir, Blob(a)) == None
      && (steps[k].RenameAside? ==>
            Sidecar(a, th.pc.version) !in d.dir && Lookup(d'.dir, Sidecar(a, th.pc.version)) == Some(th.ino))
  {
    var t := steps[k].t;
    j := DriftWitness(h, states, steps, k, t);
    JudgedBlobInPlace(h, states, steps, k, t);
    assert states[k + 1].disk == Perform(states[k].disk, EffectOf(states[k].disk, states[k].threads[t], steps[k]));
  }

  // ------------------------------------------------------------------------- one download

  lemma {:induction false} StaysPublished(log: seq<Event>, i: nat, a: string)
    requires i < |log| && log[i].Published? && log[i].addr == a
    requires forall m :: i < m < |log| ==> !log[m].PowerCut? && log[m] != Removed(a)
    ensures LastPublished(log, a)
  {
    var n := |log| - 1;
    if i < n && log[n].addr != a {
      StaysPublished(log[..n], i, a);
    }
  }

  /** Between two publications by Get at one address lies a removal by Verify, or a power loss. */
  lemma GetDownloadsOnce(h: Hash, states: seq<State>, steps: seq<Step>, k: nat, i: nat, j: nat, a: string)
    requires Execution(h, states, steps) && k < |states|
    requires i < j < |states[k].log|
    requires states[k].log[i] == Published(Get, a) && states[k].log[j] == Published(Get, a)
    ensures exists m :: i < m < j && (states[k].log[m] == Removed(a) || states[k].log[m] == PowerCut)
  {
    InvAlways(h, states, steps, k);
    var log := states[k].log;
    if forall m :: i < m < j ==> !log[m].PowerCut? && log[m] != Removed(a) {
      StaysPublished(log[..j], i, a);
    }
  }

  // -------------------------------------------------------------------------- no deadlock

  /** The step a call takes next when nothing goes wrong; a download returns. */
  function NextStep(pc: Pc, t: nat, serial: nat): Step
    requires !pc.Done?
  {
    match pc
    case FastStat => StatFast(t) case WaitMu => LockMu(t) case MuStat => StatMu(t)
    case Prepare => OpenLock(t, false) case WaitSha => LockSha(t) case ShaStat => StatSha(t)
    case Request => SendRequest(t, false) case CreateTmp => MakeTemp(t, serial, false)
    case Copying => EndBody(t, false) case SyncTmp => FsyncTemp(t, false) case Check => CheckTemp(t, false)
    case RemoveTmp => UnlinkTemp(t, false) case Publish => RenameTemp(t, false)
    case SyncPublish => FsyncPublish(t, false) case OpenBlob => OpenForVerify(t, false)
    case ReadBlob => HashBlob(t, false) case Probe(_) => ProbeName(t) case MoveAside(_) => RenameAside(t, false)
    case RemoveDrifted => UnlinkDrifted(t, false) case SyncRemoval => FsyncRemoval(t, false)
    case ReleaseSha => UnlockSha(t) case ReleaseMu => UnlockMu(t)
  }

  /** The temp names that exist or belong to a running call. */
  ghost function Serials(s: State): set<nat> {
    (set n | n in s.disk.dir && n.Temp? :: n.serial) + (set t | t in s.threads :: s.threads[t].tmp)
  }

  lemma UnblockedCallSteps(s: State, t: nat, serial: nat)
    requires t in s.threads && !s.threads[t].pc.Done?
    requires s.threads[t].pc.WaitMu? ==> MuKey(s.threads[t]) !in s.mu
    requires s.threads[t].pc.WaitSha? ==> ShaKey(s.threads[t]) !in s.sha
    requires s.threads[t].pc.SyncTmp? || s.threads[t].pc.ReadBlob? ==> s.threads[t].ino in s.disk.inodes
    requires serial !in Serials(s)
    ensures Enabled(s, NextStep(s.threads[t].pc, t, serial)) && FreshTemp(s, NextStep(s.threads[t].pc, t, serial))
  {
    hide StepAt;
    NextStepIsAt(s.threads[t].pc, t, serial);
  }

  lemma NextStepIsAt(pc: Pc, t: nat, serial: nat)
    requires !pc.Done?
    ensures var step := NextStep(pc, t, serial);
      IsCallStep(step) && step.t == t && StepAt(pc, step)
  {
  }

  lemma FilesKnown(h: Hash, s: State, t: nat)
    requires DiskOk(h, s.disk) && WritersOk(h, s) && SectionsOk(h, s) && t in s.threads
    ensures s.threads[t].pc.SyncTmp? || s.threads[t].pc.ReadBlob? ==> s.threads[t].ino in s.disk.inodes
  {
    var th := s.threads[t];
    assert WriterOk(h, s.disk, th) && SectionOk(h, s.disk, th);
    assert (Blob(th.call.addr), Lookup(s.disk.dir, Blob(th.call.addr))) in s.disk.possible;
  }

  /** Follow the locks from an unfinished call to one that waits for none. */
  lemma WaitsFor(s: State, t: nat) returns (u: nat)
    requires MuOk(s) && ShaOk(s) && t in s.threads && !s.threads[t].pc.Done?
    ensures u in s.threads && !s.threads[u].pc.Done?
    ensures s.threads[u].pc.WaitMu? ==> MuKey(s.threads[u]) !in s.mu
    ensures s.threads[u].pc.WaitSha? ==> ShaKey(s.threads[u]) !in s.sha
    ensures u == t || HoldsMu(s.threads[u].pc)
  {
    u := t;
    if s.threads[u].pc.WaitMu? && MuKey(s.threads[u]) in s.mu { u := s.mu[MuKey(s.threads[u])]; }
    if s.threads[u].pc.WaitSha? && ShaKey(s.threads[u]) in s.sha { u := s.sha[ShaKey(s.threads[u])]; }
  }

  lemma {:induction false} UnusedSerial(used: set<nat>) returns (serial: nat)
    ensures forall k <- used :: k < serial
  {
    if used == {} {
      serial := 0;
    } else {
      var k :| k in used;
      var rest := UnusedSerial(used - {k});
      serial := if rest <= k then k + 1 else rest;
      assert forall m <- used :: m == k || m in used - {k};
    }
  }

  /**
   * The two-level locking cannot deadlock: while any call is unfinished, that call or one it
   * waits for, at most two lock holders away, can take its next step.
   */
  lemma DeadlockFree(h: Hash, states: seq<State>, steps: seq<Step>, k: nat, t: nat) returns (u: nat, serial: nat)
    requires Execution(h, states, steps) && k < |states|
    requires t in states[k].threads && !states[k].threads[t].pc.Done?
    ensures u in states[k].threads && !states[k].threads[u].pc.Done?
    ensures var step := NextStep(states[k].threads[u].pc, u, serial);
      Enabled(states[k], step) && FreshTemp(states[k], step)
    ensures u == t || HoldsMu(states[k].threads[u].pc)
  {
    InvAlways(h, states, steps, k);
    serial := UnusedSerial(Serials(states[k]));
    u := WaitsFor(states[k], t);
    FilesKnown(h, states[k], u);
    UnblockedCallSteps(states[k], u, serial);
  }

  function Rank(pc: Pc): nat {
    match pc
    case FastStat => 21 case WaitMu => 20 case MuStat => 19 case Prepare => 18 case WaitSha => 17
    case ShaStat => 16 case Request => 15 case CreateTmp => 14 case Copying => 13 case SyncTmp => 12
    case Check => 11 case Publish => 10 case SyncPublish => 9 case RemoveTmp => 9
    case OpenBlob => 8 case ReadBlob => 7 case Probe(_) => 6 case MoveAside(_) => 5
    case RemoveDrifted => 4 case SyncRemoval => 3 case ReleaseSha => 2 case ReleaseMu => 1 case Done => 0
  }

  lemma {:induction false} SidecarsFit(addr: string, v: nat, names: set<Name>)
    requires forall w :: 0 <= w < v ==> Sidecar(addr, w) in names
    ensures v <= |names|
  {
    if v == 0 {
    } else {
      SidecarsFit(addr, v - 1, names - {Sidecar(addr, v - 1)});
    }
  }

  /** The search for a free sidecar name never gets past the number of files in the directory. */
  lemma ProbeBounded(h: Hash, states: seq<State>, steps: seq<Step>, k: nat, t: nat)
    requires Execution(h, states, steps) && k < |states| && t in states[k].threads
    requires states[k].threads[t].pc.Probe? || states[k].threads[t].pc.MoveAside?
    ensures states[k].threads[t].pc.version <= |states[k].disk.dir|
  {
    InvAlways(h, states, steps, k);
    var th := states[k].threads[t];
    assert SectionOk(h, states[k].disk, th);
    SidecarsFit(th.call.addr, th.pc.version, states[k].disk.dir.Keys);
  }

  predicate Spends(step: Step, t: nat) { IsCallStep(step) && !step.Receive? && step.t == t }

  /** The steps that call `t` has taken since it began, apart from received chunks. */
  ghost function Spent(steps: seq<Step>, t: nat, k: nat): nat
    requires k <= |steps|
  {
    if k == 0 || (steps[k - 1].Begin? && steps[k - 1].t == t) then 0
    else Spent(steps, t, k - 1) + if Spends(steps[k - 1], t) then 1 else 0
  }

  /** The sidecar names tried so far, or all there may be. */
  ghost function Tries(pc: Pc, files: nat): nat {
    if pc.Probe? || pc.MoveAside? then pc.version
    else if pc.RemoveDrifted? || pc.SyncRemoval? || Returning(pc) then files
    else 0
  }

  /** What a call has spent and has yet to spend. */
  ghost predicate WithinBudget(spent: nat, pc: Pc, files: nat) { spent + Rank(pc) <= 21 + Tries(pc, files) }

  /** One step later a call that did not just begin is where it was, or one step further. */
  lemma CallMoves(h: Hash, s: State, step: Step, t: nat)
    requires Enabled(s, step) && t in Apply(h, s, step).threads && !(step.Begin? && step.t == t)
    ensures t in s.threads
    ensures if IsCallStep(step) && step.t == t
      then StepAt(s.threads[t].pc, step) && Apply(h, s, step).threads[t].pc == NextPc(h, s.disk, s.threads[t], step)
      else Apply(h, s, step).threads[t] == s.threads[t]
  {
  }

  lemma BudgetStep(h: Hash, d: Disk, th: Thread, step: Step, files: nat, spent: nat)
    requires IsCallStep(step) && StepAt(th.pc, step) && ThreadOk(th)
    requires th.pc.Probe? || th.pc.MoveAside? ==> th.pc.version <= files
    requires WithinBudget(spent, th.pc, files)
    ensures WithinBudget(spent + if step.Receive? then 0 else 1, NextPc(h, d, th, step), files)
  {
  }

  lemma BudgetKept(h: Hash, states: seq<State>, steps: seq<Step>, k: nat, t: nat, files: nat)
    requires Execution(h, states, steps) && k < |steps| && t in states[k + 1].threads
    requires !(steps[k].Begin? && steps[k].t == t) && |states[k].disk.dir| <= files
    requires t in states[k].threads ==> WithinBudget(Spent(steps, t, k), states[k].threads[t].pc, files)
    ensures WithinBudget(Spent(steps, t, k + 1), states[k + 1].threads[t].pc, files)
  {
    hide WithinBudget;
    CallMoves(h, states[k], steps[k], t);
    if IsCallStep(steps[k]) && steps[k].t == t {
      var th := states[k].threads[t];
      if th.pc.Probe? || th.pc.MoveAside? { ProbeBounded(h, states, steps, k, t); }
      ThreadRecordOk(h, states, steps, k, t);
      BudgetStep(h, states[k].disk, th, steps[k], files, Spent(steps, t, k));
    }
  }

  lemma ThreadRecordOk(h: Hash, states: seq<State>, steps: seq<Step>, k: nat, t: nat)
    requires Execution(h, states, steps) && k < |states| && t in states[k].threads
    ensures ThreadOk(states[k].threads[t])
  {
    InvAlways(h, states, steps, k);
  }

  /**
   * In every execution a call takes at most 21 steps and as many more as the directory ever held files,
   * apart from the chunks it receives; so it ends unless it waits for a lock or its download never does.
   */
  lemma {:induction false} CallTakesBoundedSteps(h: Hash, states: seq<State>, steps: seq<Step>, k: nat, t: nat,
                                                 files: nat)
    requires Execution(h, states, steps) && k < |states| && t in states[k].threads
    requires forall m :: 0 <= m <= k ==> |states[m].disk.dir| <= files
    ensures Spent(steps, t, k) <= 21 + files
    ensures WithinBudget(Spent(steps, t, k), states[k].threads[t].pc, files)
  {
    hide WithinBudget, Enabled, Apply, Init;
    NobodyAtStart(h, states, steps);
    assert Enabled(states[k - 1], steps[k - 1]) && states[k] == Apply(h, states[k - 1], steps[k - 1]);
    if steps[k - 1].Begin? && steps[k - 1].t == t {
      BeginsWithinBudget(h, states[k - 1], steps[k - 1], files);
    } else {
      CallMoves(h, states[k - 1], steps[k - 1], t);
      CallTakesBoundedSteps(h, states, steps, k - 1, t, files);
      BudgetKept(h, states, steps, k - 1, t, files);
    }
    var pc := states[k].threads[t].pc;
    if pc.Probe? || pc.MoveAside? { ProbeBounded(h, states, steps, k, t); }
    BudgetBounds(Spent(steps, t, k), pc, files);
  }

  lemma NobodyAtStart(h: Hash, states: seq<State>, steps: seq<Step>)
    requires Execution(h, states, steps)
    ensures states[0].threads == map[]
  {
  }

  lemma BeginsWithinBudget(h: Hash, s: State, step: Step, files: nat)
    requires Enabled(s, step) && step.Begin?
    ensures step.t in Apply(h, s, step).threads && WithinBudget(0, Apply(h, s, step).threads[step.t].pc, files)
  {
  }

  lemma BudgetBounds(spent: nat, pc: Pc, files: nat)
    requires WithinBudget(spent, pc, files) && (pc.Probe? || pc.MoveAside? ==> pc.version <= files)
    ensures spent <= 21 + files
  {
  }

  // ----------------------------------------------------------- samples and durable entries

  /** After any power loss the name holds exactly this file. */
  ghost predicate Durable(d: Disk, n: Name, i: nat) {
    forall v: Option<nat> :: (n, v) in d.possible ==> v == Some(i)
  }

  lemma SparedEntry(h: Hash, d: Disk, e: Effect, n: Name, i: nat)
    requires DiskOk(h, d) && CanPerform(d, e) && Spares(e, n) && Lookup(d.dir, n) == Some(i)
    ensures Lookup(Perform(d, e).dir, n) == Some(i)
    ensures Durable(d, n, i) ==> Durable(Perform(d, e), n, i)
  {
  }

  /** A call step that changes neither a sidecar nor the bytes of a file that has left its temp name. */
  lemma SampleSpared(h: Hash, d: Disk, th: Thread, step: Step, a: string, v: nat, i: nat)
    requires Ready(h, d, th, step) && Lookup(d.dir, Sidecar(a, v)) == Some(i)
    ensures Spares(EffectOf(d, th, step), Sidecar(a, v))
    ensures EffectOf(d, th, step).Append? ==> EffectOf(d, th, step).ino != i
  {
    assert (Sidecar(a, v), Lookup(d.dir, Sidecar(a, v))) in d.possible;
  }

  /** What survives of an entry: its file, its bytes unless tampered with, and its durability. */
  ghost predicate Survives(d: Disk, d': Disk, n: Name, i: nat, tampered: bool) {
    && Lookup(d'.dir, n) == Some(i) && i in d.inodes && i in d'.inodes
    && (tampered || d'.inodes[i].data == d.inodes[i].data)
    && (Durable(d, n, i) ==> Durable(d', n, i))
  }

  lemma SampleCallStep(h: Hash, d: Disk, th: Thread, step: Step, a: string, v: nat, i: nat)
    requires Ready(h, d, th, step) && CanPerform(d, EffectOf(d, th, step))
    requires Lookup(d.dir, Sidecar(a, v)) == Some(i)
    ensures Survives(d, Perform(d, EffectOf(d, th, step)), Sidecar(a, v), i, false)
  {
    assert (Sidecar(a, v), Lookup(d.dir, Sidecar(a, v))) in d.possible;
    SampleSpared(h, d, th, step, a, v, i);
    SparedEntry(h, d, EffectOf(d, th, step), Sidecar(a, v), i);
  }

  lemma SampleStep(h: Hash, s: State, step: Step, s': State, a: string, v: nat, i: nat)
    requires IsCallStep(step) && step.t in s.threads ==> Ready(h, s.disk, s.threads[step.t], step)
    requires DiskOk(h, s.disk) && Enabled(s, step) && s' == Apply(h, s, step)
    requires Lookup(s.disk.dir, Sidecar(a, v)) == Some(i)
    requires step.PowerLoss? ==> Durable(s.disk, Sidecar(a, v), i)
    ensures Survives(s.disk, s'.disk, Sidecar(a, v), i, step.BitRot? && step.ino == i)
  {
    hide StepAt, NextThread, Events, EffectOf, WriterOk, SectionOk, ThreadOk;
    assert (Sidecar(a, v), Lookup(s.disk.dir, Sidecar(a, v))) in s.disk.possible;
    if IsCallStep(step) {
      EffectHarmless(h, s.disk, s.threads[step.t], step);
      SampleCallStep(h, s.disk, s.threads[step.t], step, a, v, i);
    } else if step.Sweep? {
      SparedEntry(h, s.disk, Unlink(Temp(step.serial)), Sidecar(a, v), i);
    } else if step.PowerLoss? {
      assert (Sidecar(a, v), Lookup(step.survivors, Sidecar(a, v))) in s.disk.possible;
    }
  }

  lemma SampleExists(h: Hash, states: seq<State>, steps: seq<Step>, k: nat, a: string, v: nat, f: nat)
    requires Execution(h, states, steps) && k < |states|
    requires Lookup(states[k].disk.dir, Sidecar(a, v)) == Some(f)
    ensures f in states[k].disk.inodes
  {
    InvAlways(h, states, steps, k);
    assert (Sidecar(a, v), Lookup(states[k].disk.dir, Sidecar(a, v))) in states[k].disk.possible;
  }

  lemma SampleAt(h: Hash, states: seq<State>, steps: seq<Step>, k: nat, a: string, v: nat, f: nat)
    requires Execution(h, states, steps) && k < |steps|
    requires Lookup(states[k].disk.dir, Sidecar(a, v)) == Some(f)
    requires steps[k].PowerLoss? ==> Durable(states[k].disk, Sidecar(a, v), f)
    ensures Survives(states[k].disk, states[k + 1].disk, Sidecar(a, v), f, steps[k].BitRot? && steps[k].ino == f)
  {
    InvAlways(h, states, steps, k);
    if IsCallStep(steps[k]) { ReadyToStep(h, states[k], steps[k]); }
    SampleStep(h, states[k], steps[k], states[k + 1], a, v, f);
  }

  /**
   * No step of any call, nor any start-up sweep, overwrites, renames or deletes a quarantined
   * sample or changes its bytes; once the directory has been flushed, no power loss does either.
   */
  lemma {:induction false} SamplesSurvive(h: Hash, states: seq<State>, steps: seq<Step>, i: nat, j: nat, a: string,
                                          v: nat, f: nat)
    requires Execution(h, states, steps) && i <= j < |states|
    requires Lookup(states[i].disk.dir, Sidecar(a, v)) == Some(f)
    requires Durable(states[i].disk, Sidecar(a, v), f) || forall m :: i <= m < j ==> !steps[m].PowerLoss?
    ensures Survives(states[i].disk, states[j].disk, Sidecar(a, v), f,
      exists m :: i <= m < j && steps[m].BitRot? && steps[m].ino == f)
  {
    SampleExists(h, states, steps, i, a, v, f);
    if i == j {
    } else {
      SamplesSurvive(h, states, steps, i, j - 1, a, v, f);
      SampleAt(h, states, steps, j - 1, a, v, f);
    }
  }

  lemma PublishedBlobInPlace(h: Hash, states: seq<State>, steps: seq<Step>, k: nat, t: nat)
    requires Execution(h, states, steps) && k < |states| && t in states[k].threads
    requires states[k].threads[t].pc.SyncPublish?
    ensures Lookup(states[k].disk.dir, Blob(states[k].threads[t].call.addr)) == Some(states[k].threads[t].ino)
  {
    InvAlways(h, states, steps, k);
  }

  /** The directory fsync that ends a successful publication makes every entry durable. */
  lemma PublicationIsDurable(h: Hash, states: seq<State>, steps: seq<Step>, k: nat)
    requires Execution(h, states, steps) && k < |steps| && steps[k].FsyncPublish? && !steps[k].fails
    ensures var th := states[k].threads[steps[k].t];
      && Durable(states[k + 1].disk, Blob(th.call.addr), th.ino)
      && states[k + 1].threads[steps[k].t].ok
  {
    var t := steps[k].t;
    PublishedBlobInPlace(h, states, steps, k, t);
    assert states[k + 1].disk == Flush(states[k].disk);
    assert states[k + 1].threads[t] == NextThread(h, states[k].disk, states[k].threads[t], steps[k]);
  }

  lemma BlobStep(h: Hash, states: seq<State>, steps: seq<Step>, k: nat, a: string, f: nat)
    requires Execution(h, states, steps) && k < |steps|
    requires Lookup(states[k].disk.dir, Blob(a)) == Some(f) && Durable(states[k].disk, Blob(a), f)
    requires !ReplacedByFetch(h, states[k], steps[k], states[k + 1], a)
    requires !RemovedByVerify(h, states[k], steps[k], states[k + 1], a)
    ensures Lookup(states[k + 1].disk.dir, Blob(a)) == Some(f) && Durable(states[k + 1].disk, Blob(a), f)
  {
    InvAlways(h, states, steps, k);
    var s, step := states[k], steps[k];
    if step.PowerLoss? {
      assert (Blob(a), Lookup(step.survivors, Blob(a))) in s.disk.possible;
    } else {
      if IsCallStep(step) { ReadyToStep(h, s, step); }
      BlobChanges(h, s, step, states[k + 1], a);
      if IsCallStep(step) { SparedEntry(h, s.disk, EffectOf(s.disk, s.threads[step.t], step), Blob(a), f); }
    }
  }

  /** A durable blob outlives any number of power losses until a fetch replaces it or a Verify removes it. */
  lemma {:induction false} DurableBlobSurvives(h: Hash, states: seq<State>, steps: seq<Step>, i: nat, j: nat,
                                               a: string, f: nat)
    requires Execution(h, states, steps) && i <= j < |states|
    requires Lookup(states[i].disk.dir, Blob(a)) == Some(f) && Durable(states[i].disk, Blob(a), f)
    requires forall m :: i <= m < j ==> !ReplacedByFetch(h, states[m], steps[m], states[m + 1], a)
    requires forall m :: i <= m < j ==> !RemovedByVerify(h, states[m], steps[m], states[m + 1], a)
    ensures Lookup(states[j].disk.dir, Blob(a)) == Some(f) && Durable(states[j].disk, Blob(a), f)
  {
    if i == j {
    } else {
      DurableBlobSurvives(h, states, steps, i, j - 1, a, f);
      BlobStep(h, states, steps, j - 1, a, f);
    }
  }
}
