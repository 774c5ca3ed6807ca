/** What every step of the image-store protocol keeps. */
module StoreInvariants {
  import opened Prelude
  import opened StoreNames
  import opened StoreProtocol

  /** A lock is held by exactly the live call whose program point says so. */
  ghost predicate MuOk(s: State) {
    && (forall t <- s.threads :: HoldsMu(s.threads[t].pc) ==>
          MuKey(s.threads[t]) in s.mu && s.mu[MuKey(s.threads[t])] == t)
    && (forall k <- s.mu :: s.mu[k] in s.threads &&
          HoldsMu(s.threads[s.mu[k]].pc) && MuKey(s.threads[s.mu[k]]) == k)
  }

  function ShaKey(th: Thread): string { LockKey(th.call.addr) }

  ghost predicate ShaOk(s: State) {
    && (forall t <- s.threads :: HoldsSha(s.threads[t].pc) ==>
          ShaKey(s.threads[t]) in s.sha && s.sha[ShaKey(s.threads[t])] == t)
    && (forall k <- s.sha :: s.sha[k] in s.threads &&
          HoldsSha(s.threads[s.sha[k]].pc) && ShaKey(s.threads[s.sha[k]]) == k)
  }

  predicate Returning(pc: Pc) { pc.ReleaseSha? || pc.ReleaseMu? || pc.Done? }

  /** Before the address lock's critical section has changed anything. */
  predicate Fetching(pc: Pc) {
    pc.ShaStat? || pc.Request? || pc.CreateTmp? || OwnsTemp(pc) || pc.RemoveTmp?
  }

  /** Verify between opening the blob and moving it away. */
  predicate Judging(pc: Pc) { pc.ReadBlob? || pc.Probe? || pc.MoveAside? || pc.RemoveDrifted? }

  /** What a call's own record says about itself: which operation is where, and what it found. */
  ghost predicate PhaseOk(th: Thread) {
    && ((th.pc.FastStat? || th.pc.MuStat? || th.pc.ShaStat?) ==> th.call.op.Get?)
    && ((Fetching(th.pc) || th.pc.SyncPublish?) ==> !th.call.op.Verify?)
    && ((Judging(th.pc) || th.pc.OpenBlob? || th.pc.SyncRemoval?) ==> th.call.op.Verify?)
    && (th.call.op.Get? && Fetching(th.pc) && !th.pc.ShaStat? ==> th.before == None)
  }

  /** And how far it has come. */
  ghost predicate FlagsOk(th: Thread) {
    && (th.ok ==> Returning(th.pc))
    && (th.published ==> !th.call.op.Verify? && (th.pc.SyncPublish? || Returning(th.pc)))
    && (th.pc.SyncPublish? ==> th.published)
    && (th.syncFailed ==> th.published && !th.ok && Returning(th.pc))
    && (Returning(th.pc) && th.published && !th.ok ==> th.syncFailed)
    && (th.call.op.Get? && th.published ==> th.before == None)
  }

  ghost predicate ThreadOk(th: Thread) { PhaseOk(th) && FlagsOk(th) }

  ghost predicate ThreadsOk(s: State) {
    forall t <- s.threads :: ThreadOk(s.threads[t])
  }

  /**
   * Every file a name holds, or may hold after a power loss, exists; blobs and quarantined
   * samples are flushed, and blobs are sound.
   */
  ghost predicate DiskOk(h: Hash, d: Disk) {
    && (forall n: Name :: (n, Lookup(d.dir, n)) in d.possible)
    && (forall n: Name, i: nat :: (n, Some(i)) in d.possible ==> i in d.inodes)
    && (forall n: Name, i: nat :: (n, Some(i)) in d.possible && !n.Temp? ==>
          i in d.inodes && d.inodes[i].synced && (n.Blob? ==> Sound(h, d.inodes[i], n.addr)))
    && (forall i <- d.inodes :: i < d.next)
  }

  /** A call that may still publish its temp file: no other name leads to the file, and the name to no other file. */
  ghost predicate WriterOk(h: Hash, d: Disk, th: Thread) {
    OwnsTemp(th.pc) ==>
      && th.ino in d.inodes
      && (forall n: Name :: (n, Some(th.ino)) in d.possible ==> n == Temp(th.tmp))
      && (Temp(th.tmp) in d.dir ==> d.dir[Temp(th.tmp)] == th.ino)
      && (d.inodes[th.ino].tainted || d.inodes[th.ino].data == th.read)
      && (th.pc.Check? || th.pc.Publish? ==> d.inodes[th.ino].synced)
      && (th.pc.Publish? ==> h(th.read) == th.call.addr && (th.call.size == 0 || |th.read| == th.call.size))
  }

  ghost predicate WritersOk(h: Hash, s: State) {
    && (forall t <- s.threads :: WriterOk(h, s.disk, s.threads[t]))
    && (forall t <- s.threads, u <- s.threads ::
          t != u && OwnsTemp(s.threads[t].pc) && OwnsTemp(s.threads[u].pc) ==>
            s.threads[t].tmp != s.threads[u].tmp && s.threads[t].ino != s.threads[u].ino)
  }

  /** What a call inside the address lock knows about its own blob and sidecars. */
  ghost predicate SectionOk(h: Hash, d: Disk, th: Thread) {
    var addr := th.call.addr;
    var cur := Lookup(d.dir, Blob(addr));
    && (Fetching(th.pc) || th.pc.OpenBlob? ==> cur == th.before)
    && (th.pc.SyncPublish? ==> cur == Some(th.ino))
    && (Judging(th.pc) ==> cur == Some(th.ino) && th.before == Some(th.ino))
    && (Judging(th.pc) && !th.pc.ReadBlob? ==> h(th.read) != addr)
    && (th.pc.Probe? || th.pc.MoveAside? ==>
          forall v :: 0 <= v < th.pc.version ==> Sidecar(addr, v) in d.dir)
    && (th.pc.MoveAside? ==> Sidecar(addr, th.pc.version) !in d.dir)
    && (th.pc.ReleaseSha? && !th.call.op.Verify? ==>
          cur == if th.published then Some(th.ino) else th.before)
  }

  ghost predicate SectionsOk(h: Hash, s: State) {
    forall t <- s.threads :: SectionOk(h, s.disk, s.threads[t])
  }

  /** The last event that concerns `a` since the last power cut is a publication. */
  ghost predicate LastPublished(log: seq<Event>, a: string) {
    if log == [] then false
    else
      var e := log[|log| - 1];
      if e.PowerCut? then false
      else if e.addr == a then e.Published?
      else LastPublished(log[..|log| - 1], a)
  }

  ghost predicate LogOk(s: State) {
    && (forall a :: LastPublished(s.log, a) ==> Blob(a) in s.disk.dir)
    && (forall j :: 0 <= j < |s.log| && s.log[j].Published? && s.log[j].op.Get? ==>
          !LastPublished(s.log[..j], s.log[j].addr))
  }

  ghost predicate Inv(h: Hash, s: State) {
    MuOk(s) && ShaOk(s) && ThreadsOk(s) && DiskOk(h, s.disk) && WritersOk(h, s) &&
    SectionsOk(h, s) && LogOk(s)
  }

  // ------------------------------------------------------------------------- control

  lemma ControlMu(h: Hash, d: Disk, th: Thread, step: Step)
    requires IsCallStep(step) && StepAt(th.pc, step)
    requires step.HashBlob? ==> th.ino in d.inodes
    ensures NextThread(h, d, th, step).call == th.call
    ensures HoldsMu(NextThread(h, d, th, step).pc) <==> step.LockMu? || (HoldsMu(th.pc) && !step.UnlockMu?)
    ensures (step.LockMu? ==> !HoldsMu(th.pc)) && (step.UnlockMu? ==> HoldsMu(th.pc))
  {
  }

  lemma ControlSha(h: Hash, d: Disk, th: Thread, step: Step)
    requires IsCallStep(step) && StepAt(th.pc, step)
    requires step.HashBlob? ==> th.ino in d.inodes
    ensures NextThread(h, d, th, step).call == th.call
    ensures HoldsSha(NextThread(h, d, th, step).pc) <==> step.LockSha? || (HoldsSha(th.pc) && !step.UnlockSha?)
    ensures (step.LockSha? ==> !HoldsSha(th.pc)) && (step.UnlockSha? ==> HoldsSha(th.pc))
  {
  }

  lemma ControlTemp(h: Hash, d: Disk, th: Thread, step: Step)
    requires IsCallStep(step) && StepAt(th.pc, step)
    requires step.HashBlob? ==> th.ino in d.inodes
    ensures OwnsTemp(NextThread(h, d, th, step).pc) ==>
      (step.MakeTemp? && !step.fails) || (OwnsTemp(th.pc) && !step.MakeTemp?)
    ensures !step.MakeTemp? ==> NextThread(h, d, th, step).tmp == th.tmp
    ensures OwnsTemp(th.pc) ==> NextThread(h, d, th, step).ino == th.ino
  {
  }

  lemma ThreadStep(h: Hash, d: Disk, th: Thread, step: Step)
    requires ThreadOk(th) && SectionOk(h, d, th)
    requires IsCallStep(step) && StepAt(th.pc, step)
    requires step.HashBlob? ==> th.ino in d.inodes
    ensures ThreadOk(NextThread(h, d, th, step))
  {
    hide PhaseOk, FlagsOk, NextThread, StepAt;
    PhaseStep(h, d, th, step);
    FlagsStep(h, d, th, step);
  }

  lemma PhaseStep(h: Hash, d: Disk, th: Thread, step: Step)
    requires PhaseOk(th) && (th.pc.ShaStat? ==> Lookup(d.dir, Blob(th.call.addr)) == th.before)
    requires IsCallStep(step) && StepAt(th.pc, step)
    requires step.HashBlob? ==> th.ino in d.inodes
    ensures PhaseOk(NextThread(h, d, th, step))
  {
  }

  lemma FlagsStep(h: Hash, d: Disk, th: Thread, step: Step)
    requires ThreadOk(th) && IsCallStep(step) && StepAt(th.pc, step)
    requires step.HashBlob? ==> th.ino in d.inodes
    ensures FlagsOk(NextThread(h, d, th, step))
  {
  }

  // --------------------------------------------------------------------------- locks

  lemma MuKept(s: State, s': State, t: nat, th': Thread, locks: bool, unlocks: bool)
    requires MuOk(s) && t in s.threads && s'.threads == s.threads[t := th'] && th'.call == s.threads[t].call
    requires HoldsMu(th'.pc) <==> locks || (HoldsMu(s.threads[t].pc) && !unlocks)
    requires locks ==> MuKey(th') !in s.mu && !unlocks
    requires unlocks ==> HoldsMu(s.threads[t].pc)
    requires s'.mu == if locks then s.mu[MuKey(th') := t] else if unlocks then s.mu - {MuKey(th')} else s.mu
    ensures MuOk(s')
  {
  }

  lemma ShaKept(s: State, s': State, t: nat, th': Thread, locks: bool, unlocks: bool)
    requires ShaOk(s) && t in s.threads && s'.threads == s.threads[t := th'] && th'.call == s.threads[t].call
    requires HoldsSha(th'.pc) <==> locks || (HoldsSha(s.threads[t].pc) && !unlocks)
    requires locks ==> ShaKey(th') !in s.sha && !unlocks
    requires unlocks ==> HoldsSha(s.threads[t].pc)
    requires s'.sha == if locks then s.sha[ShaKey(th') := t] else if unlocks then s.sha - {ShaKey(th')} else s.sha
    ensures ShaOk(s')
  {
  }

  /** Two calls inside the lock of one address are the same call, although locks are keyed by a prefix. */
  lemma MutualExclusion(s: State, t: nat, u: nat)
    requires ShaOk(s) && t in s.threads && u in s.threads
    requires HoldsSha(s.threads[t].pc) && HoldsSha(s.threads[u].pc)
    requires s.threads[t].call.addr == s.threads[u].call.addr
    ensures t == u
  {
    assert ShaKey(s.threads[t]) == ShaKey(s.threads[u]);
  }

  // ------------------------------------------------------------------------- the directory

  /** Effects that keep every blob sound: only verified, flushed files reach a blob name. */
  ghost predicate Harmless(h: Hash, d: Disk, e: Effect)
    requires CanPerform(d, e)
  {
    match e
    case Append(ino, _) => forall a: string :: (Blob(a), Some(ino)) !in d.possible
    case Move(from, to) => !to.Temp? ==>
      d.dir[from] in d.inodes && d.inodes[d.dir[from]].synced &&
      (to.Blob? ==> Sound(h, d.inodes[d.dir[from]], to.addr))
    case _ => true
  }

  /** The file that a rename moves was already possible under its old name. */
  lemma MovedFrom(h: Hash, d: Disk, e: Effect)
    requires DiskOk(h, d) && CanPerform(d, e)
    ensures e.Move? ==> (e.from, Some(d.dir[e.from])) in d.possible && d.dir[e.from] in d.inodes
    ensures forall n: Name, i: nat :: (n, Some(i)) in Perform(d, e).possible ==>
      || (n, Some(i)) in d.possible
      || (e.Create? && n == Temp(e.serial) && i == d.next)
      || (e.Move? && n == e.to && i == d.dir[e.from])
  {
    if e.Move? { assert (e.from, Lookup(d.dir, e.from)) in d.possible; }
    if e.FlushDir? {
      forall n: Name, i: nat | (n, Some(i)) in Perform(d, e).possible ensures (n, Some(i)) in d.possible {
        assert (n, Lookup(d.dir, n)) in d.possible;
      }
    }
  }

  lemma DiskKept(h: Hash, d: Disk, e: Effect)
    requires DiskOk(h, d) && CanPerform(d, e) && Harmless(h, d, e)
    ensures DiskOk(h, Perform(d, e))
  {
    var d' := Perform(d, e);
    forall n: Name ensures (n, Lookup(d'.dir, n)) in d'.possible {
      assert (n, Lookup(d.dir, n)) in d.possible;
    }
    MovedFrom(h, d, e);
  }

  /** Effects that leave the temp file of `th` alone. */
  ghost predicate Foreign(d: Disk, e: Effect, th: Thread) {
    match e
    case Create(serial) => serial != th.tmp
    case Append(ino, _) => ino != th.ino
    case MarkSynced(ino) => ino != th.ino
    case Move(from, to) => from != Temp(th.tmp) && to != Temp(th.tmp)
    case _ => true
  }

  lemma WriterKept(h: Hash, d: Disk, e: Effect, th: Thread)
    requires DiskOk(h, d) && CanPerform(d, e) && WriterOk(h, d, th) && Foreign(d, e, th)
    ensures WriterOk(h, Perform(d, e), th)
  {
    MovedFrom(h, d, e);
  }

  /** Effects that leave the blob and the sidecars of an address alone. */
  ghost predicate Elsewhere(e: Effect, addr: string) {
    match e
    case Unlink(n) => n.Temp? || n.addr != addr
    case Move(from, to) => (from.Temp? || from.addr != addr) && (to.Temp? || to.addr != addr)
    case _ => true
  }

  lemma SectionKept(h: Hash, d: Disk, e: Effect, th: Thread)
    requires SectionOk(h, d, th) && CanPerform(d, e) && Elsewhere(e, th.call.addr)
    ensures SectionOk(h, Perform(d, e), th)
  {
  }

  // ----------------------------------------------------------------- the stepping call itself

  /** Everything a call step needs of its own thread and of the directory. */
  ghost predicate Ready(h: Hash, d: Disk, th: Thread, step: Step) {
    && IsCallStep(step) && StepAt(th.pc, step)
    && DiskOk(h, d) && ThreadOk(th) && WriterOk(h, d, th) && SectionOk(h, d, th)
    && (step.Receive? || step.FsyncTemp? || step.HashBlob? ==> th.ino in d.inodes)
    && (step.MakeTemp? ==> Temp(step.serial) !in d.dir)
  }

  lemma EffectHarmless(h: Hash, d: Disk, th: Thread, step: Step)
    requires Ready(h, d, th, step)
    ensures CanPerform(d, EffectOf(d, th, step)) && Harmless(h, d, EffectOf(d, th, step))
  {
    if step.RenameTemp? && Succeeds(d, th, step) {
      assert (Temp(th.tmp), Lookup(d.dir, Temp(th.tmp))) in d.possible;
      assert d.dir[Temp(th.tmp)] == th.ino;
    }
  }

  lemma WriterSelf(h: Hash, d: Disk, th: Thread, step: Step)
    requires Ready(h, d, th, step) && CanPerform(d, EffectOf(d, th, step))
    ensures WriterOk(h, Perform(d, EffectOf(d, th, step)), NextThread(h, d, th, step))
  {
    hide SectionOk, ThreadOk;
    ControlTemp(h, d, th, step);
    MovedFrom(h, d, EffectOf(d, th, step));
  }

  lemma SectionVerifying(h: Hash, d: Disk, th: Thread, step: Step)
    requires Ready(h, d, th, step) && CanPerform(d, EffectOf(d, th, step))
    requires Judging(th.pc) || th.pc.OpenBlob? || th.pc.SyncRemoval?
    ensures SectionOk(h, Perform(d, EffectOf(d, th, step)), NextThread(h, d, th, step))
  {
    hide DiskOk, WriterOk;
  }

  lemma SectionPublishing(h: Hash, d: Disk, th: Thread, step: Step)
    requires Ready(h, d, th, step) && CanPerform(d, EffectOf(d, th, step))
    requires OwnsTemp(th.pc) || th.pc.SyncPublish? || th.pc.CreateTmp? || th.pc.RemoveTmp?
    ensures SectionOk(h, Perform(d, EffectOf(d, th, step)), NextThread(h, d, th, step))
  {
    hide DiskOk, WriterOk;
    if step.RenameTemp? { SectionRename(h, d, th, step); }
  }

  lemma SectionRename(h: Hash, d: Disk, th: Thread, step: Step)
    requires Ready(h, d, th, step) && CanPerform(d, EffectOf(d, th, step)) && step.RenameTemp?
    ensures SectionOk(h, Perform(d, EffectOf(d, th, step)), NextThread(h, d, th, step))
  {
    if Succeeds(d, th, step) {
      assert (Temp(th.tmp), Lookup(d.dir, Temp(th.tmp))) in d.possible;
      assert d.dir[Temp(th.tmp)] == th.ino;
    }
  }

  lemma SectionSelf(h: Hash, d: Disk, th: Thread, step: Step)
    requires Ready(h, d, th, step) && CanPerform(d, EffectOf(d, th, step))
    ensures SectionOk(h, Perform(d, EffectOf(d, th, step)), NextThread(h, d, th, step))
  {
    hide SectionOk, Ready, CanPerform, EffectOf, Perform, NextThread;
    if Judging(th.pc) || th.pc.OpenBlob? || th.pc.SyncRemoval? {
      SectionVerifying(h, d, th, step);
    } else if OwnsTemp(th.pc) || th.pc.SyncPublish? || th.pc.CreateTmp? || th.pc.RemoveTmp? {
      SectionPublishing(h, d, th, step);
    } else {
      SectionIdle(h, d, th, step);
    }
  }

  lemma SectionIdle(h: Hash, d: Disk, th: Thread, step: Step)
    requires Ready(h, d, th, step) && CanPerform(d, EffectOf(d, th, step))
    requires !Judging(th.pc) && !th.pc.OpenBlob? && !th.pc.SyncRemoval?
    requires !OwnsTemp(th.pc) && !th.pc.SyncPublish? && !th.pc.CreateTmp? && !th.pc.RemoveTmp?
    ensures SectionOk(h, Perform(d, EffectOf(d, th, step)), NextThread(h, d, th, step))
  {
    hide DiskOk, WriterOk, Perform, EffectOf;
    IdleEffect(d, th, step);
  }

  lemma IdleEffect(d: Disk, th: Thread, step: Step)
    requires IsCallStep(step) && StepAt(th.pc, step)
    requires !Judging(th.pc) && !th.pc.SyncRemoval?
    requires !OwnsTemp(th.pc) && !th.pc.SyncPublish? && !th.pc.CreateTmp? && !th.pc.RemoveTmp?
    ensures EffectOf(d, th, step) == Nothing && Perform(d, Nothing) == d
  {
  }

  // ------------------------------------------------------------------------- the other calls

  lemma ReadyToStep(h: Hash, s: State, step: Step)
    requires Inv(h, s) && Enabled(s, step) && IsCallStep(step)
    ensures Ready(h, s.disk, s.threads[step.t], step)
  {
  }

  lemma OtherWriter(h: Hash, s: State, step: Step, u: nat)
    requires WritersOk(h, s) && DiskOk(h, s.disk)
    requires Enabled(s, step) && FreshTemp(s, step) && IsCallStep(step)
    requires u in s.threads && u != step.t
    requires CanPerform(s.disk, EffectOf(s.disk, s.threads[step.t], step))
    ensures WriterOk(h, Perform(s.disk, EffectOf(s.disk, s.threads[step.t], step)), s.threads[u])
  {
    var th, other := s.threads[step.t], s.threads[u];
    if OwnsTemp(other.pc) {
      assert Foreign(s.disk, EffectOf(s.disk, th, step), other);
      WriterKept(h, s.disk, EffectOf(s.disk, th, step), other);
    }
  }

  /** Outside the address lock a call knows nothing about the directory. */
  lemma SectionOutside(h: Hash, d: Disk, th: Thread)
    requires !HoldsSha(th.pc)
    ensures SectionOk(h, d, th)
  {
  }

  /** Only a call inside the address lock touches its blob or sidecars, and no others. */
  lemma EffectAddress(d: Disk, th: Thread, step: Step, addr: string)
    requires IsCallStep(step) && StepAt(th.pc, step)
    requires !(HoldsSha(th.pc) && th.call.addr == addr)
    ensures Elsewhere(EffectOf(d, th, step), addr)
  {
  }

  lemma OtherSection(h: Hash, s: State, step: Step, u: nat)
    requires ShaOk(s) && SectionsOk(h, s) && Enabled(s, step) && IsCallStep(step)
    requires u in s.threads && u != step.t
    requires CanPerform(s.disk, EffectOf(s.disk, s.threads[step.t], step))
    ensures SectionOk(h, Perform(s.disk, EffectOf(s.disk, s.threads[step.t], step)), s.threads[u])
  {
    var th, other := s.threads[step.t], s.threads[u];
    var e := EffectOf(s.disk, th, step);
    if !HoldsSha(other.pc) {
      SectionOutside(h, Perform(s.disk, e), other);
    } else {
      if HoldsSha(th.pc) && th.call.addr == other.call.addr { MutualExclusion(s, step.t, u); }
      EffectAddress(s.disk, th, step, other.call.addr);
      SectionKept(h, s.disk, e, other);
    }
  }

  // ---------------------------------------------------------------------- assembling a step

  lemma WritersAfterCall(h: Hash, s: State, step: Step)
    requires Inv(h, s) && Enabled(s, step) && FreshTemp(s, step) && IsCallStep(step)
    ensures WritersOk(h, Apply(h, s, step))
  {
    var t, th := step.t, s.threads[step.t];
    ReadyToStep(h, s, step);
    EffectHarmless(h, s.disk, th, step);
    WriterSelf(h, s.disk, th, step);
    ControlTemp(h, s.disk, th, step);
    var d' := Perform(s.disk, EffectOf(s.disk, th, step));
    forall u | u in s.threads && u != t ensures WriterOk(h, d', s.threads[u]) {
      OtherWriter(h, s, step, u);
    }
    WritersAssembled(h, s, Apply(h, s, step), t, NextThread(h, s.disk, th, step), step.MakeTemp? && !step.fails);
  }

  lemma WritersAssembled(h: Hash, s: State, s': State, t: nat, th': Thread, created: bool)
    requires WritersOk(h, s) && DiskOk(h, s.disk) && t in s.threads
    requires s'.threads == s.threads[t := th']
    requires WriterOk(h, s'.disk, th')
    requires forall u | u in s.threads && u != t :: WriterOk(h, s'.disk, s.threads[u])
    requires OwnsTemp(th'.pc) && !created ==>
      OwnsTemp(s.threads[t].pc) && th'.tmp == s.threads[t].tmp && th'.ino == s.threads[t].ino
    requires created ==> th'.ino == s.disk.next
    requires created ==> forall u <- s.threads :: OwnsTemp(s.threads[u].pc) ==> s.threads[u].tmp != th'.tmp
    ensures WritersOk(h, s')
  {
  }

  lemma SectionsAfterCall(h: Hash, s: State, step: Step)
    requires Inv(h, s) && Enabled(s, step) && IsCallStep(step)
    ensures SectionsOk(h, Apply(h, s, step))
  {
    var t, th := step.t, s.threads[step.t];
    ReadyToStep(h, s, step);
    EffectHarmless(h, s.disk, th, step);
    SectionSelf(h, s.disk, th, step);
    var d' := Perform(s.disk, EffectOf(s.disk, th, step));
    forall u | u in s.threads && u != t ensures SectionOk(h, d', s.threads[u]) {
      OtherSection(h, s, step, u);
    }
    SectionsAssembled(h, s, Apply(h, s, step), t, NextThread(h, s.disk, th, step));
  }

  lemma SectionsAssembled(h: Hash, s: State, s': State, t: nat, th': Thread)
    requires t in s.threads && s'.threads == s.threads[t := th'] && SectionOk(h, s'.disk, th')
    requires forall u | u in s.threads && u != t :: SectionOk(h, s'.disk, s.threads[u])
    ensures SectionsOk(h, s')
  {
  }

  lemma ThreadsAfterCall(h: Hash, s: State, step: Step)
    requires Inv(h, s) && Enabled(s, step) && IsCallStep(step)
    ensures ThreadsOk(Apply(h, s, step)) && DiskOk(h, Apply(h, s, step).disk)
  {
    var th := s.threads[step.t];
    ReadyToStep(h, s, step);
    EffectHarmless(h, s.disk, th, step);
    DiskKept(h, s.disk, EffectOf(s.disk, th, step));
    ThreadStep(h, s.disk, th, step);
  }

  lemma LocksAfterCall(h: Hash, s: State, step: Step)
    requires MuOk(s) && ShaOk(s) && Enabled(s, step) && IsCallStep(step)
    ensures MuOk(Apply(h, s, step)) && ShaOk(Apply(h, s, step))
  {
    hide MuOk, ShaOk, NextThread, Perform, EffectOf, Events, StepAt;
    var t, th := step.t, s.threads[step.t];
    ControlMu(h, s.disk, th, step);
    ControlSha(h, s.disk, th, step);
    var th' := NextThread(h, s.disk, th, step);
    MuKept(s, Apply(h, s, step), t, th', step.LockMu?, step.UnlockMu?);
    ShaKept(s, Apply(h, s, step), t, th', step.LockSha?, step.UnlockSha?);
  }

  // ------------------------------------------------------------------------------- the log

  lemma LogExtended(log: seq<Event>, e: Event, a: string)
    ensures LastPublished(log + [e], a) ==
      if e.PowerCut? then false else if e.addr == a then e.Published? else LastPublished(log, a)
  {
    assert (log + [e])[..|log|] == log;
  }

  /** Appending an event keeps the log well guarded when a Get publishes only at an empty address. */
  lemma LogAppended(s: State, s': State, e: Event)
    requires LogOk(s) && s'.log == s.log + [e]
    requires e.Published? && e.op.Get? ==> Blob(e.addr) !in s.disk.dir
    requires e.Published? ==> Blob(e.addr) in s'.disk.dir
    requires !e.PowerCut? ==> forall a :: a != e.addr && Blob(a) in s.disk.dir ==> Blob(a) in s'.disk.dir
    ensures LogOk(s')
  {
    forall a ensures LastPublished(s'.log, a) ==> Blob(a) in s'.disk.dir { LogExtended(s.log, e, a); }
    forall j | 0 <= j < |s'.log| && s'.log[j].Published? && s'.log[j].op.Get?
      ensures !LastPublished(s'.log[..j], s'.log[j].addr)
    {
      assert s'.log[..j] == s.log[..j];
      if j == |s.log| { assert s.log[..j] == s.log; }
    }
  }

  lemma EventFacts(h: Hash, d: Disk, th: Thread, step: Step)
    requires Ready(h, d, th, step) && CanPerform(d, EffectOf(d, th, step))
    ensures var ev, d' := Events(d, th, step), Perform(d, EffectOf(d, th, step));
      && (ev == [] || (|ev| == 1 && !ev[0].PowerCut? && ev[0].addr == th.call.addr))
      && (forall a :: Blob(a) in d.dir && (ev == [] || a != th.call.addr) ==> Blob(a) in d'.dir)
      && (ev != [] && ev[0].Published? ==> Blob(th.call.addr) in d'.dir && ev[0].op == th.call.op)
      && (ev != [] && ev[0].Published? && th.call.op.Get? ==> Blob(th.call.addr) !in d.dir)
  {
  }

  lemma LogAfterCall(h: Hash, s: State, step: Step)
    requires LogOk(s) && Enabled(s, step) && IsCallStep(step) && Ready(h, s.disk, s.threads[step.t], step)
    ensures LogOk(Apply(h, s, step))
  {
    var th := s.threads[step.t];
    EventFacts(h, s.disk, th, step);
    LogGrown(s, Apply(h, s, step), th, Events(s.disk, th, step));
  }

  lemma LogGrown(s: State, s': State, th: Thread, ev: seq<Event>)
    requires LogOk(s) && s'.log == s.log + ev
    requires ev == [] || (|ev| == 1 && !ev[0].PowerCut? && ev[0].addr == th.call.addr)
    requires forall a :: Blob(a) in s.disk.dir && (ev == [] || a != th.call.addr) ==> Blob(a) in s'.disk.dir
    requires ev != [] && ev[0].Published? ==> Blob(th.call.addr) in s'.disk.dir && ev[0].op == th.call.op
    requires ev != [] && ev[0].Published? && th.call.op.Get? ==> Blob(th.call.addr) !in s.disk.dir
    ensures LogOk(s')
  {
    if ev == [] {
      assert s'.log == s.log;
    } else {
      assert s'.log == s.log + [ev[0]];
      LogAppended(s, s', ev[0]);
    }
  }

  // ------------------------------------------------------------------------ environment steps

  lemma InvSweep(h: Hash, s: State, step: Step)
    requires Inv(h, s) && Enabled(s, step) && step.Sweep?
    ensures Inv(h, Apply(h, s, step))
  {
    var e := Unlink(Temp(step.serial));
    DiskKept(h, s.disk, e);
    forall t | t in s.threads
      ensures WriterOk(h, Perform(s.disk, e), s.threads[t]) && SectionOk(h, Perform(s.disk, e), s.threads[t])
    {
      WriterKept(h, s.disk, e, s.threads[t]);
      SectionKept(h, s.disk, e, s.threads[t]);
    }
  }

  lemma RottenInode(h: Hash, d: Disk, i: nat, f: Inode, th: Thread)
    requires i in d.inodes && f.tainted && f.synced == d.inodes[i].synced
    requires DiskOk(h, d) && WriterOk(h, d, th) && SectionOk(h, d, th)
    ensures DiskOk(h, SetInode(d, i, f)) && WriterOk(h, SetInode(d, i, f), th) && SectionOk(h, SetInode(d, i, f), th)
  {
  }

  lemma InvBitRot(h: Hash, s: State, step: Step)
    requires Inv(h, s) && Enabled(s, step) && step.BitRot?
    ensures Inv(h, Apply(h, s, step))
  {
    var f := s.disk.inodes[step.ino].(data := step.data, tainted := true);
    assert DiskOk(h, SetInode(s.disk, step.ino, f));
    forall t | t in s.threads
      ensures WriterOk(h, SetInode(s.disk, step.ino, f), s.threads[t])
      ensures SectionOk(h, SetInode(s.disk, step.ino, f), s.threads[t])
    {
      RottenInode(h, s.disk, step.ino, f, s.threads[t]);
    }
  }

  lemma NewThreadOk(h: Hash, d: Disk, call: Call)
    ensures var th := NewThread(call);
      && ThreadOk(th) && WriterOk(h, d, th) && SectionOk(h, d, th)
      && !HoldsMu(th.pc) && !HoldsSha(th.pc) && !OwnsTemp(th.pc)
  {
  }

  lemma ThreadAdded(h: Hash, s: State, t: nat, th: Thread)
    requires Inv(h, s) && t !in s.threads
    requires ThreadOk(th) && WriterOk(h, s.disk, th) && SectionOk(h, s.disk, th)
    requires !HoldsMu(th.pc) && !HoldsSha(th.pc) && !OwnsTemp(th.pc)
    ensures Inv(h, Put(s, t, th))
  {
    hide ThreadOk, WriterOk, SectionOk, DiskOk, LogOk;
    var s' := Put(s, t, th);
    LocksAdded(s, t, th);
    assert s'.disk == s.disk && s'.log == s.log;
    LogUnchanged(s, s');
  }

  lemma LocksAdded(s: State, t: nat, th: Thread)
    requires MuOk(s) && ShaOk(s) && t !in s.threads && !HoldsMu(th.pc) && !HoldsSha(th.pc)
    ensures MuOk(Put(s, t, th)) && ShaOk(Put(s, t, th))
  {
  }

  lemma LogUnchanged(s: State, s': State)
    requires LogOk(s) && s'.log == s.log && s'.disk == s.disk
    ensures LogOk(s')
  {
  }

  lemma InvBegin(h: Hash, s: State, step: Step)
    requires Inv(h, s) && Enabled(s, step) && step.Begin?
    ensures Inv(h, Apply(h, s, step))
  {
    NewThreadOk(h, s.disk, step.call);
    ThreadAdded(h, s, step.t, NewThread(step.call));
  }

  lemma InvKill(h: Hash, s: State, step: Step)
    requires Inv(h, s) && Enabled(s, step) && step.Kill?
    ensures Inv(h, Apply(h, s, step))
  {
  }

  lemma InvPowerLoss(h: Hash, s: State, step: Step)
    requires Inv(h, s) && Enabled(s, step) && step.PowerLoss?
    ensures Inv(h, Apply(h, s, step))
  {
    LogAppended(s, Apply(h, s, step), PowerCut);
  }

  // ---------------------------------------------------------------------------- every step

  /** Every step of every call, and of the environment, keeps the whole invariant. */
  lemma InvStep(h: Hash, s: State, step: Step)
    requires Inv(h, s) && Enabled(s, step) && FreshTemp(s, step)
    ensures Inv(h, Apply(h, s, step))
  {
    if IsCallStep(step) {
      ReadyToStep(h, s, step);
      LocksAfterCall(h, s, step);
      ThreadsAfterCall(h, s, step);
      WritersAfterCall(h, s, step);
      SectionsAfterCall(h, s, step);
      LogAfterCall(h, s, step);
    } else {
      match step
      case Begin(_, _) => InvBegin(h, s, step);
      case Sweep(_) => InvSweep(h, s, step);
      case BitRot(_, _) => InvBitRot(h, s, step);
      case Kill(_) => InvKill(h, s, step);
      case PowerLoss(_, _) => InvPowerLoss(h, s, step);
    }
  }

  lemma InvInit(h: Hash, s: State)
    requires Init(h, s)
    ensures Inv(h, s)
  {
  }

  lemma {:induction false} InvAlways(h: Hash, states: seq<State>, steps: seq<Step>, k: nat)
    requires Execution(h, states, steps) && k < |states|
    ensures Inv(h, states[k])
  {
    if k == 0 {
      InvInit(h, states[0]);
    } else {
      InvAlways(h, states, steps, k - 1);
      InvStep(h, states[k - 1], steps[k - 1]);
    }
  }
}
