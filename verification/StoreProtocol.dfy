/**
 * The content-addressed image store as a transition system: any number of Get,
 * Refresh and Verify calls, from any number of store instances, interleaved step by
 * step over one blob directory, with process kills, power loss, outside bit-rot and
 * the start-up sweep of other instances.
 *
 * SHA-256 is a parameter `h`, so every result holds for every hash function.
 */
module StoreProtocol {
  import opened Prelude
  import opened StoreNames

  type Bytes = seq<bv8>
  type Hash = Bytes -> string

  // ---------------------------------------------------------------- blob directory

  /** `synced` says the data has been flushed; `tainted` that an outside step changed it. */
  datatype Inode = Inode(data: Bytes, synced: bool, tainted: bool)

  /**
   * `dir` is what running processes see. `possible` holds, for every name, each entry
   * the name may turn out to have after a power loss: all it has had since the last
   * successful directory fsync. Names may come back independently of each other.
   */
  datatype Disk = Disk(
    inodes: map<nat, Inode>,
    dir: map<Name, nat>,
    possible: iset<(Name, Option<nat>)>,
    next: nat)

  ghost function Lookup(dir: map<Name, nat>, n: Name): Option<nat> {
    if n in dir then Some(dir[n]) else None
  }

  ghost function SetEntry(d: Disk, n: Name, v: Option<nat>): Disk {
    d.(dir := if v.Some? then d.dir[n := v.value] else d.dir - {n},
       possible := d.possible + iset{(n, v)})
  }

  /** A successful fsync of the directory. */
  ghost function Flush(d: Disk): Disk {
    d.(possible := iset e: (Name, Option<nat>) | e.1 == Lookup(d.dir, e.0))
  }

  ghost function SetInode(d: Disk, i: nat, f: Inode): Disk {
    d.(inodes := d.inodes[i := f])
  }

  /** The file-system calls the store makes, once they go through. */
  datatype Effect =
    | Nothing
    | Create(serial: nat)
    | Append(ino: nat, chunk: Bytes)
    | MarkSynced(ino: nat)
    | Unlink(name: Name)
    | Move(from: Name, to: Name)
    | FlushDir

  ghost predicate CanPerform(d: Disk, e: Effect) {
    match e
    case Create(serial) => Temp(serial) !in d.dir
    case Append(ino, _) => ino in d.inodes
    case MarkSynced(ino) => ino in d.inodes
    case Unlink(n) => n in d.dir
    case Move(from, to) => from in d.dir && from != to
    case _ => true
  }

  ghost function Perform(d: Disk, e: Effect): Disk
    requires CanPerform(d, e)
  {
    match e
    case Nothing => d
    case Create(serial) =>
      SetEntry(SetInode(d, d.next, Inode([], false, false)), Temp(serial), Some(d.next)).(next := d.next + 1)
    case Append(ino, chunk) => SetInode(d, ino, d.inodes[ino].(data := d.inodes[ino].data + chunk))
    case MarkSynced(ino) => SetInode(d, ino, d.inodes[ino].(synced := true))
    case Unlink(n) => SetEntry(d, n, None)
    case Move(from, to) => SetEntry(SetEntry(d, to, Some(d.dir[from])), from, None)
    case FlushDir => Flush(d)
  }

  // ------------------------------------------------------------------------- calls

  datatype Op = Get | Refresh | Verify

  /** One accepted call: `addr` is the normalised SHA, `size` the declared size (0: none). */
  datatype Call = Call(inst: nat, op: Op, id: string, addr: string, size: int)

  datatype Pc =
    | FastStat | WaitMu | MuStat | Prepare | WaitSha
    | ShaStat | Request | CreateTmp | Copying | SyncTmp | Check | RemoveTmp | Publish | SyncPublish
    | OpenBlob | ReadBlob | Probe(version: nat) | MoveAside(version: nat) | RemoveDrifted | SyncRemoval
    | ReleaseSha | ReleaseMu | Done

  /**
   * `read` is what the hasher has consumed, `ino` the file written or opened. `before`
   * remembers the blob entry found when the address lock was taken.
   */
  datatype Thread = Thread(
    call: Call, pc: Pc, tmp: nat, ino: nat, read: Bytes, ok: bool,
    before: Option<nat>, published: bool, syncFailed: bool)

  datatype Event = Published(op: Op, addr: string) | Removed(addr: string) | PowerCut

  datatype State = State(
    disk: Disk,
    mu: map<(nat, string), nat>,
    sha: map<string, nat>,
    threads: map<nat, Thread>,
    log: seq<Event>)

  /** lockPath: the lock file is named by at most the first eight characters. */
  function LockKey(addr: string): string {
    if |addr| > 8 then addr[..8] else addr
  }

  function MuKey(th: Thread): (nat, string) { (th.call.inst, th.call.id) }

  predicate HoldsMu(pc: Pc) { !(pc.FastStat? || pc.WaitMu? || pc.Done?) }

  predicate HoldsSha(pc: Pc) {
    HoldsMu(pc) && !(pc.MuStat? || pc.Prepare? || pc.WaitSha? || pc.ReleaseMu?)
  }

  /** The call has a temp file that it may still publish. */
  predicate OwnsTemp(pc: Pc) { pc.Copying? || pc.SyncTmp? || pc.Check? || pc.Publish? }

  // ------------------------------------------------------------------------- steps

  datatype Step =
    | Begin(t: nat, call: Call)
    | StatFast(t: nat)
    | LockMu(t: nat)
    | StatMu(t: nat)
    | OpenLock(t: nat, fails: bool)
    | LockSha(t: nat)
    | StatSha(t: nat)
    | SendRequest(t: nat, fails: bool)
    | MakeTemp(t: nat, serial: nat, fails: bool)
    | Receive(t: nat, chunk: Bytes)
    | EndBody(t: nat, fails: bool)
    | FsyncTemp(t: nat, fails: bool)
    | CheckTemp(t: nat, fails: bool)
    | UnlinkTemp(t: nat, fails: bool)
    | RenameTemp(t: nat, fails: bool)
    | FsyncPublish(t: nat, fails: bool)
    | OpenForVerify(t: nat, fails: bool)
    | HashBlob(t: nat, fails: bool)
    | ProbeName(t: nat)
    | RenameAside(t: nat, fails: bool)
    | UnlinkDrifted(t: nat, fails: bool)
    | FsyncRemoval(t: nat, fails: bool)
    | UnlockSha(t: nat)
    | UnlockMu(t: nat)
    | Sweep(serial: nat)
    | BitRot(ino: nat, data: Bytes)
    | Kill(inst: nat)
    | PowerLoss(survivors: map<Name, nat>, garbage: map<nat, Bytes>)

  /** Steps of the calls themselves, as opposed to the environment's. */
  predicate IsCallStep(step: Step) {
    !(step.Begin? || step.Sweep? || step.BitRot? || step.Kill? || step.PowerLoss?)
  }

  /** The program point a call step starts from. */
  predicate StepAt(pc: Pc, step: Step)
    requires IsCallStep(step)
  {
    match step
    case StatFast(_) => pc.FastStat?
    case LockMu(_) => pc.WaitMu?
    case StatMu(_) => pc.MuStat?
    case OpenLock(_, _) => pc.Prepare?
    case LockSha(_) => pc.WaitSha?
    case StatSha(_) => pc.ShaStat?
    case SendRequest(_, _) => pc.Request?
    case MakeTemp(_, _, _) => pc.CreateTmp?
    case Receive(_, _) => pc.Copying?
    case EndBody(_, _) => pc.Copying?
    case FsyncTemp(_, _) => pc.SyncTmp?
    case CheckTemp(_, _) => pc.Check?
    case UnlinkTemp(_, _) => pc.RemoveTmp?
    case RenameTemp(_, _) => pc.Publish?
    case FsyncPublish(_, _) => pc.SyncPublish?
    case OpenForVerify(_, _) => pc.OpenBlob?
    case HashBlob(_, _) => pc.ReadBlob?
    case ProbeName(_) => pc.Probe?
    case RenameAside(_, _) => pc.MoveAside?
    case UnlinkDrifted(_, _) => pc.RemoveDrifted?
    case FsyncRemoval(_, _) => pc.SyncRemoval?
    case UnlockSha(_) => pc.ReleaseSha?
    case UnlockMu(_) => pc.ReleaseMu?
  }

  ghost predicate Enabled(s: State, step: Step) {
    if IsCallStep(step) then
      step.t in s.threads && StepAt(s.threads[step.t].pc, step) &&
      var th := s.threads[step.t];
      match step
      case LockMu(_) => MuKey(th) !in s.mu
      case LockSha(_) => LockKey(th.call.addr) !in s.sha
      case MakeTemp(_, serial, _) => Temp(serial) !in s.disk.dir       // O_EXCL
      case Receive(_, _) => th.ino in s.disk.inodes
      case FsyncTemp(_, _) => th.ino in s.disk.inodes
      case HashBlob(_, _) => th.ino in s.disk.inodes
      case _ => true
    else
      match step
      case Begin(t, call) => t !in s.threads && IsAddress(call.addr)
      case Sweep(serial) => Temp(serial) in s.disk.dir
      case BitRot(ino, _) => ino in s.disk.inodes
      case Kill(_) => true
      case PowerLoss(survivors, _) =>
        forall n: Name :: (n, Lookup(survivors, n)) in s.disk.possible
  }

  ghost function Put(s: State, t: nat, th: Thread): State {
    s.(threads := s.threads[t := th])
  }

  ghost function Apply(h: Hash, s: State, step: Step): State
    requires Enabled(s, step)
  {
    if IsCallStep(step) then ApplyCall(h, s, step.t, s.threads[step.t], step)
    else
      match step
      case Begin(t, call) => Put(s, t, NewThread(call))
      case Sweep(serial) => s.(disk := Perform(s.disk, Unlink(Temp(serial))))
      case BitRot(ino, data) =>
        s.(disk := SetInode(s.disk, ino, s.disk.inodes[ino].(data := data, tainted := true)))
      case Kill(inst) => KillInstance(s, inst)
      case PowerLoss(survivors, garbage) =>
        State(AfterPowerLoss(s.disk, survivors, garbage), map[], map[], map[], s.log + [PowerCut])
  }

  ghost function NewThread(call: Call): Thread {
    Thread(call, if call.op.Get? then FastStat else WaitMu, 0, 0, [], false, None, false, false)
  }

  /** The locks of a dead process go with it: mutexes vanish, flocks are dropped. */
  ghost function KillInstance(s: State, inst: nat): State {
    s.(threads := map t | t in s.threads && s.threads[t].call.inst != inst :: s.threads[t],
       mu := map k | k in s.mu && k.0 != inst :: s.mu[k],
       sha := map k | k in s.sha && s.sha[k] in s.threads && s.threads[s.sha[k]].call.inst != inst :: s.sha[k])
  }

  /** Unflushed file data may come back as anything; directory entries as any possible one. */
  ghost function AfterPowerLoss(d: Disk, survivors: map<Name, nat>, garbage: map<nat, Bytes>): Disk {
    var inodes := map i | i in d.inodes ::
      if d.inodes[i].synced then d.inodes[i]
      else Inode(if i in garbage then garbage[i] else [], true, d.inodes[i].tainted);
    Flush(Disk(inodes, survivors, iset{}, d.next))
  }

  /** One step of the call `th` running as `t`: its control, and its effect on what is shared. */
  ghost function ApplyCall(h: Hash, s: State, t: nat, th: Thread, step: Step): State
    requires IsCallStep(step) && Enabled(s, step) && step.t == t && s.threads[t] == th
  {
    State(
      Perform(s.disk, EffectOf(s.disk, th, step)),
      if step.LockMu? then s.mu[MuKey(th) := t] else if step.UnlockMu? then s.mu - {MuKey(th)} else s.mu,
      if step.LockSha? then s.sha[LockKey(th.call.addr) := t]
      else if step.UnlockSha? then s.sha - {LockKey(th.call.addr)} else s.sha,
      s.threads[t := NextThread(h, s.disk, th, step)],
      s.log + Events(s.disk, th, step))
  }

  /** The rename or unlink of a step goes through: it was not refused and its source exists. */
  ghost predicate Succeeds(d: Disk, th: Thread, step: Step) {
    match step
    case UnlinkTemp(_, fails) => !fails && Temp(th.tmp) in d.dir
    case RenameTemp(_, fails) => !fails && Temp(th.tmp) in d.dir
    case RenameAside(_, fails) => !fails && Blob(th.call.addr) in d.dir
    case UnlinkDrifted(_, fails) => !fails && Blob(th.call.addr) in d.dir
    case _ => false
  }

  /** The steps after which the call is certain to return without error. */
  ghost predicate Accepts(h: Hash, d: Disk, th: Thread, step: Step) {
    match step
    case StatFast(_) => Blob(th.call.addr) in d.dir
    case StatMu(_) => Blob(th.call.addr) in d.dir
    case StatSha(_) => Blob(th.call.addr) in d.dir
    case FsyncPublish(_, fails) => !fails
    case HashBlob(_, fails) => !fails && th.ino in d.inodes && h(d.inodes[th.ino].data) == th.call.addr
    case _ => false
  }

  ghost function NextPc(h: Hash, d: Disk, th: Thread, step: Step): Pc
    requires IsCallStep(step) && StepAt(th.pc, step)
  {
    match step
    case StatFast(_) => if Accepts(h, d, th, step) then Done else WaitMu
    case LockMu(_) => if th.call.op.Get? then MuStat else Prepare
    case StatMu(_) => if Accepts(h, d, th, step) then ReleaseMu else Prepare
    case OpenLock(_, fails) => if fails then ReleaseMu else WaitSha
    case LockSha(_) => (match th.call.op case Get => ShaStat case Refresh => Request case Verify => OpenBlob)
    case StatSha(_) => if Accepts(h, d, th, step) then ReleaseSha else Request
    case SendRequest(_, fails) => if fails then ReleaseSha else CreateTmp
    case MakeTemp(_, _, fails) => if fails then ReleaseSha else Copying
    case Receive(_, _) => Copying
    case EndBody(_, fails) => if fails then RemoveTmp else SyncTmp
    case FsyncTemp(_, fails) => if fails then RemoveTmp else Check
    case CheckTemp(_, fails) =>
      var bad := fails || h(th.read) != th.call.addr || (th.call.size != 0 && |th.read| != th.call.size);
      if bad then RemoveTmp else Publish
    case UnlinkTemp(_, _) => ReleaseSha
    case RenameTemp(_, _) => if Succeeds(d, th, step) then SyncPublish else RemoveTmp
    case FsyncPublish(_, _) => ReleaseSha
    case OpenForVerify(_, fails) => if fails || Blob(th.call.addr) !in d.dir then ReleaseSha else ReadBlob
    case HashBlob(_, fails) => if fails || Accepts(h, d, th, step) then ReleaseSha else Probe(0)
    case ProbeName(_) =>
      var v := th.pc.version;
      if Sidecar(th.call.addr, v) in d.dir then Probe(v + 1) else MoveAside(v)
    case RenameAside(_, _) => if Succeeds(d, th, step) then SyncRemoval else RemoveDrifted
    case UnlinkDrifted(_, _) => SyncRemoval
    case FsyncRemoval(_, _) => ReleaseSha
    case UnlockSha(_) => ReleaseMu
    case UnlockMu(_) => Done
  }

  ghost function NextThread(h: Hash, d: Disk, th: Thread, step: Step): Thread
    requires IsCallStep(step) && StepAt(th.pc, step)
    requires step.HashBlob? ==> th.ino in d.inodes
  {
    var created := step.MakeTemp? && !step.fails;
    Thread(
      th.call,
      NextPc(h, d, th, step),
      if created then step.serial else th.tmp,
      if created then d.next
      else if step.OpenForVerify? && Blob(th.call.addr) in d.dir then d.dir[Blob(th.call.addr)] else th.ino,
      if created then [] else if step.Receive? then th.read + step.chunk
      else if step.HashBlob? then d.inodes[th.ino].data else th.read,
      th.ok || Accepts(h, d, th, step),
      if step.LockSha? then Lookup(d.dir, Blob(th.call.addr)) else th.before,
      th.published || (step.RenameTemp? && Succeeds(d, th, step)),
      th.syncFailed || (step.FsyncPublish? && step.fails))
  }

  ghost function EffectOf(d: Disk, th: Thread, step: Step): Effect
    requires IsCallStep(step) && StepAt(th.pc, step)
  {
    match step
    case MakeTemp(_, serial, fails) => if fails then Nothing else Create(serial)
    case Receive(_, chunk) => Append(th.ino, chunk)
    case FsyncTemp(_, fails) => if fails then Nothing else MarkSynced(th.ino)
    case UnlinkTemp(_, _) => if Succeeds(d, th, step) then Unlink(Temp(th.tmp)) else Nothing
    case RenameTemp(_, _) => if Succeeds(d, th, step) then Move(Temp(th.tmp), Blob(th.call.addr)) else Nothing
    case FsyncPublish(_, fails) => if fails then Nothing else FlushDir
    case RenameAside(_, _) =>
      if Succeeds(d, th, step) then Move(Blob(th.call.addr), Sidecar(th.call.addr, th.pc.version)) else Nothing
    case UnlinkDrifted(_, _) => if Succeeds(d, th, step) then Unlink(Blob(th.call.addr)) else Nothing
    case FsyncRemoval(_, fails) => if fails then Nothing else FlushDir
    case _ => Nothing
  }

  ghost function Events(d: Disk, th: Thread, step: Step): seq<Event> {
    if !Succeeds(d, th, step) || step.UnlinkTemp? then []
    else if step.RenameTemp? then [Published(th.call.op, th.call.addr)]
    else [Removed(th.call.addr)]
  }

  // -------------------------------------------------------------------- executions

  /**
   * Any directory may be found at the start, as long as its blobs are sound or already
   * marked as tampered with, and no call is running.
   */
  ghost predicate Init(h: Hash, s: State) {
    s.mu == map[] && s.sha == map[] && s.threads == map[] && s.log == [] &&
    s.disk.possible == Flush(s.disk).possible &&
    (forall i <- s.disk.inodes :: i < s.disk.next && s.disk.inodes[i].synced) &&
    (forall n <- s.disk.dir :: s.disk.dir[n] in s.disk.inodes) &&
    (forall n <- s.disk.dir :: n.Blob? ==> Sound(h, s.disk.inodes[s.disk.dir[n]], n.addr))
  }

  /** The integrity promise for one file at one address. */
  ghost predicate Sound(h: Hash, f: Inode, addr: string) {
    f.tainted || h(f.data) == addr
  }

  /**
   * os.CreateTemp refuses a name that exists. Beyond that, the name it picks is taken not to be that of a
   * download which another call may still publish, and which a start-up sweep has removed under its hands.
   */
  ghost predicate FreshTemp(s: State, step: Step) {
    step.MakeTemp? ==> forall t <- s.threads :: OwnsTemp(s.threads[t].pc) ==> s.threads[t].tmp != step.serial
  }

  ghost predicate Execution(h: Hash, states: seq<State>, steps: seq<Step>) {
    |states| == |steps| + 1 && Init(h, states[0]) &&
    forall k {:trigger steps[k]} :: 0 <= k < |steps| ==>
      Enabled(states[k], steps[k]) && FreshTemp(states[k], steps[k]) &&
      states[k + 1] == Apply(h, states[k], steps[k])
  }
}
