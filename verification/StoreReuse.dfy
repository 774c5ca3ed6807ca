/**
 * Why a live temp name must not be handed out again: the start-up sweep of another process can remove a
 * live temp file, and if its name is then given to a second writer, the first one publishes the second
 * writer's bytes.
 */
module StoreReuse {
  import opened StoreNames
  import opened StoreProtocol

  /** A run in which any temp name that does not exist may be handed out. */
  ghost predicate Runs(h: Hash, s: State, steps: seq<Step>, s': State)
    decreases |steps|
  {
    if steps == [] then s' == s
    else Enabled(s, steps[0]) && Runs(h, Apply(h, s, steps[0]), steps[1..], s')
  }

  lemma {:induction false} RunsOn(h: Hash, s: State, steps: seq<Step>, mid: State, more: seq<Step>, s': State)
    requires Runs(h, s, steps, mid) && Runs(h, mid, more, s')
    ensures Runs(h, s, steps + more, s')
    decreases |steps|
  {
    if steps == [] {
      assert steps + more == more;
    } else {
      RunsOn(h, Apply(h, s, steps[0]), steps[1..], mid, more, s');
      assert (steps + more)[1..] == steps[1..] + more;
    }
  }

  lemma RunsOne(h: Hash, s: State, steps: seq<Step>, mid: State, step: Step)
    requires Runs(h, s, steps, mid) && Enabled(mid, step)
    ensures Runs(h, s, steps + [step], Apply(h, mid, step))
  {
    assert [step][1..] == [];
    RunsOn(h, s, steps, mid, [step], Apply(h, mid, step));
  }

  /** A refresh that has taken its locks and sent its request. */
  ghost predicate Requested(s: State, t: nat, call: Call) {
    t in s.threads && s.threads[t].call == call && s.threads[t].pc == CreateTmp
  }

  lemma RunsNone(h: Hash, s: State)
    ensures Runs(h, s, [], s)
  {
  }

  /** What a step of one call that is neither a lock nor an unlock leaves alone. */
  lemma CallStep(h: Hash, s: State, t: nat, step: Step)
    requires IsCallStep(step) && Enabled(s, step) && step.t == t
    requires !step.LockMu? && !step.UnlockMu? && !step.LockSha? && !step.UnlockSha?
    ensures var s' := Apply(h, s, step); var th := s.threads[t];
      && s'.mu == s.mu && s'.sha == s.sha
      && s'.threads == s.threads[t := NextThread(h, s.disk, th, step)]
      && CanPerform(s.disk, EffectOf(s.disk, th, step)) && s'.disk == Perform(s.disk, EffectOf(s.disk, th, step))
  {
  }

  /** A refresh starts and takes its image mutex. */
  lemma TakeMutex(h: Hash, s: State, t: nat, call: Call) returns (steps: seq<Step>, s': State)
    requires t !in s.threads && call.op.Refresh? && IsAddress(call.addr)
    requires (call.inst, call.id) !in s.mu
    ensures Runs(h, s, steps, s') && s'.disk == s.disk && s'.sha == s.sha
    ensures s'.threads.Keys == s.threads.Keys + {t} && forall u <- s.threads :: s'.threads[u] == s.threads[u]
    ensures s'.threads[t].call == call && s'.threads[t].pc == Prepare
    ensures s'.mu.Keys == s.mu.Keys + {(call.inst, call.id)}
  {
    hide Runs;
    RunsNone(h, s);
    RunsOne(h, s, [], s, Begin(t, call));
    steps, s' := [] + [Begin(t, call)], Apply(h, s, Begin(t, call));
    RunsOne(h, s, steps, s', LockMu(t));
    steps, s' := steps + [LockMu(t)], Apply(h, s', LockMu(t));
  }

  /** Then it opens the lock file. */
  lemma TakeLocks(h: Hash, s: State, t: nat, call: Call) returns (steps: seq<Step>, s': State)
    requires t !in s.threads && call.op.Refresh? && IsAddress(call.addr)
    requires (call.inst, call.id) !in s.mu
    ensures Runs(h, s, steps, s') && s'.disk == s.disk && s'.sha == s.sha
    ensures s'.threads.Keys == s.threads.Keys + {t} && forall u <- s.threads :: s'.threads[u] == s.threads[u]
    ensures s'.threads[t].call == call && s'.threads[t].pc == WaitSha
    ensures s'.mu.Keys == s.mu.Keys + {(call.inst, call.id)}
  {
    hide Runs, Apply;
    steps, s' := TakeMutex(h, s, t, call);
    RunsOne(h, s, steps, s', OpenLock(t, false));
    CallStep(h, s', t, OpenLock(t, false));
    steps, s' := steps + [OpenLock(t, false)], Apply(h, s', OpenLock(t, false));
  }

  /** Then it takes the address lock. */
  lemma TakeAddressLock(h: Hash, s: State, t: nat, call: Call) returns (s': State)
    requires t in s.threads && s.threads[t].call == call && s.threads[t].pc == WaitSha && call.op.Refresh?
    requires LockKey(call.addr) !in s.sha
    ensures Enabled(s, LockSha(t)) && s' == Apply(h, s, LockSha(t)) && s'.disk == s.disk && s'.mu == s.mu
    ensures s'.threads.Keys == s.threads.Keys && forall u <- s.threads :: u != t ==> s'.threads[u] == s.threads[u]
    ensures s'.threads[t].call == call && s'.threads[t].pc == Request
    ensures s'.sha.Keys == s.sha.Keys + {LockKey(call.addr)}
  {
    s' := Apply(h, s, LockSha(t));
  }

  /** With the address lock taken it gets as far as its temp file. */
  lemma SendTheRequest(h: Hash, s: State, t: nat, call: Call) returns (steps: seq<Step>, s': State)
    requires t in s.threads && s.threads[t].call == call && s.threads[t].pc == WaitSha && call.op.Refresh?
    requires LockKey(call.addr) !in s.sha
    ensures Runs(h, s, steps, s') && Requested(s', t, call) && s'.disk == s.disk && s'.mu == s.mu
    ensures s'.threads.Keys == s.threads.Keys && forall u <- s.threads :: u != t ==> s'.threads[u] == s.threads[u]
    ensures s'.sha.Keys == s.sha.Keys + {LockKey(call.addr)}
  {
    hide Runs, Apply;
    RunsNone(h, s);
    s' := TakeAddressLock(h, s, t, call);
    RunsOne(h, s, [], s, LockSha(t));
    steps := [] + [LockSha(t)];
    RunsOne(h, s, steps, s', SendRequest(t, false));
    CallStep(h, s', t, SendRequest(t, false));
    steps, s' := steps + [SendRequest(t, false)], Apply(h, s', SendRequest(t, false));
  }

  lemma BeginRefresh(h: Hash, s: State, t: nat, call: Call) returns (steps: seq<Step>, s': State)
    requires t !in s.threads && call.op.Refresh? && IsAddress(call.addr)
    requires (call.inst, call.id) !in s.mu && LockKey(call.addr) !in s.sha
    ensures Runs(h, s, steps, s') && Requested(s', t, call) && s'.disk == s.disk
    ensures s'.threads.Keys == s.threads.Keys + {t} && forall u <- s.threads :: s'.threads[u] == s.threads[u]
    ensures s'.mu.Keys == s.mu.Keys + {(call.inst, call.id)} && s'.sha.Keys == s.sha.Keys + {LockKey(call.addr)}
  {
    hide Runs;
    var mid, more;
    steps, mid := TakeLocks(h, s, t, call);
    more, s' := SendTheRequest(h, mid, t, call);
    RunsOn(h, s, steps, mid, more, s');
    steps := steps + more;
  }

  /** A refresh makes its temp file and receives an empty body. */
  lemma ReceiveNothing(h: Hash, s: State, t: nat, call: Call, serial: nat) returns (steps: seq<Step>, s': State)
    requires Requested(s, t, call) && Temp(serial) !in s.disk.dir
    ensures Runs(h, s, steps, s') && s'.threads.Keys == s.threads.Keys && s'.mu == s.mu && s'.sha == s.sha
    ensures var th := s'.threads[t];
      th.call == call && th.pc == SyncTmp && th.tmp == serial && th.read == [] && th.ino in s'.disk.inodes
    ensures s'.disk.dir == s.disk.dir[Temp(serial) := s.disk.next]
  {
    hide Runs, Apply;
    RunsNone(h, s);
    RunsOne(h, s, [], s, MakeTemp(t, serial, false));
    CallStep(h, s, t, MakeTemp(t, serial, false));
    steps, s' := [] + [MakeTemp(t, serial, false)], Apply(h, s, MakeTemp(t, serial, false));
    RunsOne(h, s, steps, s', EndBody(t, false));
    CallStep(h, s', t, EndBody(t, false));
    steps, s' := steps + [EndBody(t, false)], Apply(h, s', EndBody(t, false));
  }

  /** The temp file is flushed. */
  lemma FlushNothing(h: Hash, s: State, t: nat, call: Call, serial: nat) returns (steps: seq<Step>, s': State)
    requires Requested(s, t, call) && Temp(serial) !in s.disk.dir
    ensures Runs(h, s, steps, s') && s'.threads.Keys == s.threads.Keys && s'.mu == s.mu && s'.sha == s.sha
    ensures var th := s'.threads[t]; th.call == call && th.pc == Check && th.tmp == serial && th.read == []
    ensures s'.disk.dir == s.disk.dir[Temp(serial) := s.disk.next]
  {
    hide Runs, Apply;
    steps, s' := ReceiveNothing(h, s, t, call, serial);
    RunsOne(h, s, steps, s', FsyncTemp(t, false));
    CallStep(h, s', t, FsyncTemp(t, false));
    steps, s' := steps + [FsyncTemp(t, false)], Apply(h, s', FsyncTemp(t, false));
  }

  /** When the hash of the empty body is right it gets as far as the rename. */
  lemma DownloadNothing(h: Hash, s: State, t: nat, call: Call, serial: nat) returns (steps: seq<Step>, s': State)
    requires Requested(s, t, call) && Temp(serial) !in s.disk.dir && h([]) == call.addr && call.size == 0
    ensures Runs(h, s, steps, s') && s'.threads.Keys == s.threads.Keys
    ensures s'.threads[t].call == call && s'.threads[t].pc == Publish && s'.threads[t].tmp == serial
    ensures s'.disk.dir == s.disk.dir[Temp(serial) := s.disk.next]
    ensures s'.mu == s.mu && s'.sha == s.sha
  {
    hide Runs, Apply;
    steps, s' := FlushNothing(h, s, t, call, serial);
    RunsOne(h, s, steps, s', CheckTemp(t, false));
    CallStep(h, s', t, CheckTemp(t, false));
    steps, s' := steps + [CheckTemp(t, false)], Apply(h, s', CheckTemp(t, false));
  }

  /** Another refresh that is given the same temp name writes into it. */
  lemma WriteAgain(h: Hash, s: State, t: nat, call: Call, serial: nat, chunk: Bytes)
    returns (steps: seq<Step>, s': State)
    requires Requested(s, t, call) && Temp(serial) !in s.disk.dir
    ensures Runs(h, s, steps, s') && Temp(serial) in s'.disk.dir
    ensures |steps| == 2 && steps[0] == MakeTemp(t, serial, false)
    ensures s'.disk.dir[Temp(serial)] == s.disk.next &&
      s'.disk.inodes == s.disk.inodes[s.disk.next := Inode(chunk, false, false)]
    ensures s'.threads.Keys == s.threads.Keys && forall u <- s.threads :: u != t ==> s'.threads[u] == s.threads[u]
  {
    hide Runs;
    RunsNone(h, s);
    RunsOne(h, s, [], s, MakeTemp(t, serial, false));
    steps, s' := [] + [MakeTemp(t, serial, false)], Apply(h, s, MakeTemp(t, serial, false));
    RunsOne(h, s, steps, s', Receive(t, chunk));
    steps, s' := steps + [Receive(t, chunk)], Apply(h, s', Receive(t, chunk));
    assert [] + chunk == chunk;
  }

  lemma SweepTemp(h: Hash, s: State, serial: nat) returns (s': State)
    requires Temp(serial) in s.disk.dir
    ensures Enabled(s, Sweep(serial)) && s' == Apply(h, s, Sweep(serial))
    ensures Temp(serial) !in s'.disk.dir && s'.threads == s.threads && s'.mu == s.mu && s'.sha == s.sha
  {
    s' := Apply(h, s, Sweep(serial));
  }

  /** The rename publishes whatever file the temp name leads to by now. */
  lemma PublishTemp(h: Hash, s: State, t: nat) returns (s': State)
    requires t in s.threads && s.threads[t].pc == Publish && Temp(s.threads[t].tmp) in s.disk.dir
    ensures Enabled(s, RenameTemp(t, false)) && s' == Apply(h, s, RenameTemp(t, false))
    ensures var a := Blob(s.threads[t].call.addr);
      a in s'.disk.dir && s'.disk.dir[a] == s.disk.dir[Temp(s.threads[t].tmp)] && s'.disk.inodes == s.disk.inodes
  {
    s' := Apply(h, s, RenameTemp(t, false));
  }

  /**
   * In any state, giving the swept name of a call that is about to publish to another call leads, in three
   * steps, to a blob with whatever bytes that other call receives.
   */
  lemma ReuseBreaksIntegrity(h: Hash, s: State, t: nat, u: nat, chunk: Bytes) returns (steps: seq<Step>, s': State)
    requires t in s.threads && u in s.threads && t != u
    requires s.threads[t].pc == Publish && Temp(s.threads[t].tmp) !in s.disk.dir
    requires s.threads[u].pc == CreateTmp && h(chunk) != s.threads[t].call.addr
    ensures |steps| == 3 && steps[0] == MakeTemp(u, s.threads[t].tmp, false) && !FreshTemp(s, steps[0])
    ensures Runs(h, s, steps, s') && Broken(h, s', s.threads[t].call.addr)
  {
    hide Runs, Apply, Enabled;
    var mid;
    steps, mid := WriteAgain(h, s, u, s.threads[u].call, s.threads[t].tmp, chunk);
    s' := PublishTemp(h, mid, t);
    RunsOne(h, s, steps, mid, RenameTemp(t, false));
    steps := steps + [RenameTemp(t, false)];
  }

  /** A file at the address, untouched from outside, that does not hash to it. */
  ghost predicate Broken(h: Hash, s: State, addr: string) {
    && Blob(addr) in s.disk.dir && s.disk.dir[Blob(addr)] in s.disk.inodes
    && !Sound(h, s.disk.inodes[s.disk.dir[Blob(addr)]], addr)
  }

  ghost function Empty(): State { State(Flush(Disk(map[], map[], iset{}, 0)), map[], map[], map[], []) }

  lemma EmptyIsInitial(h: Hash)
    ensures Init(h, Empty())
  {
  }

  /**
   * Such a state is reached from an empty directory: whenever the empty download is right for one address,
   * and some bytes are wrong for it, a run ends with those bytes published under that address.
   */
  lemma ReusedTempNameBreaksIntegrity(h: Hash, chunk: Bytes, b: string) returns (s: State, steps: seq<Step>, s': State)
    requires IsAddress(h([])) && h(chunk) != h([]) && IsAddress(b) && LockKey(b) != LockKey(h([]))
    ensures Init(h, s) && Runs(h, s, steps, s') && Broken(h, s', h([]))
  {
    hide Runs, Apply, Enabled, Init, Broken;
    s := Empty();
    EmptyIsInitial(h);
    var first, second := Call(0, Refresh, "one", h([]), 0), Call(1, Refresh, "two", b, 0);
    var mid, more;
    steps, mid := BeginRefresh(h, s, 0, first);
    more, s' := DownloadNothing(h, mid, 0, first, 0);
    RunsOn(h, s, steps, mid, more, s');
    steps, mid := steps + more, s';
    s' := SweepTemp(h, mid, 0);
    RunsOne(h, s, steps, mid, Sweep(0));
    steps, mid := steps + [Sweep(0)], s';
    more, s' := BeginRefresh(h, mid, 1, second);
    RunsOn(h, s, steps, mid, more, s');
    steps, mid := steps + more, s';
    more, s' := ReuseBreaksIntegrity(h, mid, 0, 1, chunk);
    RunsOn(h, s, steps, mid, more, s');
    steps := steps + more;
  }
}
