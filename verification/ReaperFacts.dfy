/** Whom a reaper signals and what it reports, read off the process table, the polls and the target. */
module ReaperFacts {
  import opened Prelude
  import opened Reaper

  /** The tokens that make a process the reaper's own, for each reaper. */
  ghost predicate Ours(target: Target, comms: map<nat, string>, cmdlines: map<nat, seq<string>>, pid: nat) {
    match target
    case Emulator(avdName) =>
      && pid in comms && "qemu-system-" <= comms[pid] && pid in cmdlines
      && exists i :: 0 <= i < |cmdlines[pid]| - 1 && cmdlines[pid][i] == "-avd" && cmdlines[pid][i + 1] == avdName
    case Cuttlefish(token) =>
      && pid in comms && (comms[pid] == "crosvm" || comms[pid] == "run_cvd" || comms[pid] == "cvd_internal_start")
      && pid in cmdlines && token in cmdlines[pid]
    case EmulatorPort(port) =>
      && pid in cmdlines
      && exists i :: 0 <= i < |cmdlines[pid]| - 1 && cmdlines[pid][i] == "-port" &&
           cmdlines[pid][i + 1] == if port < 0 then "-" + Decimal.Itoa(-port) else Decimal.Itoa(port)
  }

  lemma OwnedReads(target: Target, comms: map<nat, string>, cmdlines: map<nat, seq<string>>, pid: nat)
    ensures Owned(target, comms, cmdlines, pid) <==> Ours(target, comms, cmdlines, pid)
  {
    hide Decimal.Itoa;
  }

  /** The process table is unreadable: its command lines, or its names where the reaper needs them. */
  lemma WalkFailsReads(target: Target, comms: Option<map<nat, string>>, cmdlines: Option<map<nat, seq<string>>>)
    ensures WalkFails(target, comms, cmdlines) <==>
      cmdlines.None? || (comms.None? && (target.Emulator? || target.Cuttlefish?))
    ensures comms.Some? ==> Table(comms) == comms.value
  {
  }

  /** A process of ours was alive at the poll. */
  ghost predicate AliveAt(target: Target, comms: map<nat, string>, cmdlines: map<nat, seq<string>>, poll: Poll,
                          pid: nat)
  {
    Ours(target, comms, cmdlines, pid) && pid in poll.alive
  }

  ghost predicate NobodyAt(target: Target, comms: map<nat, string>, cmdlines: map<nat, seq<string>>, poll: Poll) {
    forall pid :: !AliveAt(target, comms, cmdlines, poll, pid)
  }

  lemma FoundReads(target: Target, comms: map<nat, string>, cmdlines: map<nat, seq<string>>, polls: seq<Poll>,
                   killable: set<nat>, report: Report, ending: Ending, polled: nat, sent: seq<Sent>, pid: nat)
    requires Reaped(target, comms, cmdlines, polls, killable, report, ending, polled, sent)
    ensures pid in report.found <==> Ours(target, comms, cmdlines, pid)
    ensures pid in report.skipped <==> (target.Emulator? || target.Cuttlefish?) && pid in comms && comms[pid] == ""
    ensures forall n :: 0 <= n <= |polls| ==>
      (pid in Seen(report.found, polls, n) <==> n > 0 && AliveAt(target, comms, cmdlines, polls[n - 1], pid))
  {
    hide Keep, Ours;
    OwnedReads(target, comms, cmdlines, pid);
    forall n | 0 <= n <= |polls|
      ensures pid in Seen(report.found, polls, n) <==> n > 0 && AliveAt(target, comms, cmdlines, polls[n - 1], pid)
    {
      if n > 0 { KeepMembers(report.found, polls[n - 1].alive, true, pid); }
    }
  }

  /**
   * TERM goes to exactly the reaper's own processes, and KILL, unless the context is cancelled, to exactly those of
   * them that were alive at the last poll.
   */
  lemma SignalledIff(target: Target, comms: map<nat, string>, cmdlines: map<nat, seq<string>>, polls: seq<Poll>,
                     killable: set<nat>, report: Report, ending: Ending, polled: nat, sent: seq<Sent>, pid: nat)
    requires Reaped(target, comms, cmdlines, polls, killable, report, ending, polled, sent)
    ensures Sent(pid, Term) in sent <==> Ours(target, comms, cmdlines, pid)
    ensures Sent(pid, Kill) in sent <==>
      ending.Finished? && polled > 0 && AliveAt(target, comms, cmdlines, polls[polled - 1], pid)
  {
    hide Ours, AliveAt, Seen, Owned, Distinct;
    FoundReads(target, comms, cmdlines, polls, killable, report, ending, polled, sent, pid);
    SignalsRead(report.found, Term, pid);
    SignalsRead(report.found, Term, pid);
    SignalsRead(Seen(report.found, polls, polled), Kill, pid);
  }

  lemma SignalsRead(pids: seq<nat>, signal: Signal, pid: nat)
    ensures forall s: Signal :: Sent(pid, s) in Signals(pids, signal) <==> s == signal && pid in pids
  {
    if pid in pids {
      var i :| 0 <= i < |pids| && pids[i] == pid;
      assert Signals(pids, signal)[i] == Sent(pid, signal);
    }
  }

  /**
   * The polls end at the deadline, at the first one that finds none of the reaper's processes alive, or with the
   * context; so no earlier poll found none.
   */
  lemma PollsRead(target: Target, comms: map<nat, string>, cmdlines: map<nat, seq<string>>, polls: seq<Poll>,
                  killable: set<nat>, report: Report, ending: Ending, polled: nat, sent: seq<Sent>)
    requires Reaped(target, comms, cmdlines, polls, killable, report, ending, polled, sent)
    ensures polled <= |polls| && forall i :: 0 <= i < polled ==> !polls[i].cancelled
    ensures forall i :: 0 <= i < polled - 1 ==> !NobodyAt(target, comms, cmdlines, polls[i])
    ensures ending.Cancelled? ==> polled < |polls| && polls[polled].cancelled
    ensures ending.Finished? && report.found != [] && polled < |polls| ==>
      polled == 0 || NobodyAt(target, comms, cmdlines, polls[polled - 1])
  {
    hide Ours, AliveAt, Keep, Owned;
    forall i | 0 <= i < polled - 1 ensures !NobodyAt(target, comms, cmdlines, polls[i]) {
      assert Seen(report.found, polls, i + 1) != [];
      var pid := Seen(report.found, polls, i + 1)[0];
      FoundReads(target, comms, cmdlines, polls, killable, report, ending, polled, sent, pid);
      assert AliveAt(target, comms, cmdlines, polls[i], pid);
    }
    if ending.Finished? && 0 < polled < |polls| {
      var poll := polls[polled - 1];
      forall pid ensures !AliveAt(target, comms, cmdlines, poll, pid) {
        FoundReads(target, comms, cmdlines, polls, killable, report, ending, polled, sent, pid);
      }
    }
  }

  /** What is reported about a process of a finished reaping, and nothing about any other. */
  lemma ReportReads(target: Target, comms: map<nat, string>, cmdlines: map<nat, seq<string>>, polls: seq<Poll>,
                    killable: set<nat>, report: Report, polled: nat, sent: seq<Sent>, pid: nat)
    requires Reaped(target, comms, cmdlines, polls, killable, report, Finished, polled, sent)
    ensures var last := polled > 0 && AliveAt(target, comms, cmdlines, polls[polled - 1], pid);
      && (pid in report.killed <==> last && pid in killable)
      && (pid in report.surviving <==> last && pid !in killable)
      && (pid in report.terminated <==>
            (target.Emulator? || target.Cuttlefish?) && Ours(target, comms, cmdlines, pid) && !last)
  {
    hide Ours, Owned, Keep;
    FoundReads(target, comms, cmdlines, polls, killable, report, Finished, polled, sent, pid);
    var stragglers := Seen(report.found, polls, polled);
    KeepMembers(stragglers, killable, true, pid);
    KeepMembers(stragglers, killable, false, pid);
    KeepMembers(report.found, set p | p in stragglers, false, pid);
  }

  /** Another instance's virtual machine is not ours. */
  lemma OtherInstanceExample()
    ensures var comms, cmdlines := map[7 := "crosvm"], map[7 := ["crosvm", "--base_instance_num=2"]];
      !Ours(Cuttlefish("--base_instance_num=1"), comms, cmdlines, 7)
  {
    var argv, token := ["crosvm", "--base_instance_num=2"], "--base_instance_num=1";
    assert argv[0][0] != token[0] && argv[1][|token| - 1] != token[|token| - 1];
  }
}
