/**
 * The process reapers: find the processes that carry the ownership token, send TERM, poll during a grace
 * period, send KILL to what is left. The process table, the liveness polls, the cancellation of the
 * context and the outcome of each KILL are answers; the signals sent are recorded.
 */
module Reaper {
  import opened Prelude
  import Decimal

  datatype Signal = Term | Kill

  datatype Sent = Sent(pid: nat, signal: Signal)

  /** One round of the grace period: the context is cancelled, or the interval passes and `alive` is observed. */
  datatype Poll = Poll(cancelled: bool, alive: set<nat>)

  datatype Ending = Finished | Cancelled | WalkFailed

  datatype Report = Report(
    skipped: seq<nat>, found: seq<nat>, terminated: seq<nat>, killed: seq<nat>, surviving: seq<nat>)

  const NOTHING := Report([], [], [], [], [])

  // ---------------------------------------------------------------------------- ownership

  predicate Adjacent(argv: seq<string>, flag: string, val: string) {
    exists i :: 0 <= i < |argv| - 1 && argv[i] == flag && argv[i + 1] == val
  }

  /** argvHasAdjacent. */
  method ArgvHasAdjacent(argv: seq<string>, flag: string, val: string) returns (r: bool)
    ensures r <==> Adjacent(argv, flag, val)
  {
    var i := 0;
    while i + 1 < |argv|
      invariant 0 <= i && forall j :: 0 <= j < i && j < |argv| - 1 ==> !(argv[j] == flag && argv[j + 1] == val)
    {
      if argv[i] == flag && argv[i + 1] == val { return true; }
      i := i + 1;
    }
    return false;
  }

  /** argvContains. */
  method ArgvContains(argv: seq<string>, token: string) returns (r: bool)
    ensures r <==> token in argv
  {
    for i := 0 to |argv|
      invariant token !in argv[..i]
    {
      if argv[i] == token { return true; }
    }
    return false;
  }

  /** Which reaper, with the token that proves ownership. */
  datatype Target = Emulator(avdName: string) | Cuttlefish(token: string) | EmulatorPort(port: int)

  const CUTTLEFISH_NAMES := {"crosvm", "run_cvd", "cvd_internal_start"}

  predicate Refused(target: Target) {
    (target.Emulator? && target.avdName == "") || (target.Cuttlefish? && target.token == "")
  }

  predicate OwnsArgv(target: Target, argv: seq<string>) {
    match target
    case Emulator(avdName) => Adjacent(argv, "-avd", avdName)
    case Cuttlefish(token) => token in argv
    case EmulatorPort(port) => Adjacent(argv, "-port", Decimal.IntText(port))
  }

  /** The process class, a filter in front of the ownership test. */
  predicate InClass(target: Target, comm: string) {
    match target
    case Emulator(_) => "qemu-system-" <= comm
    case Cuttlefish(_) => comm in CUTTLEFISH_NAMES
    case EmulatorPort(_) => true
  }

  function Argv(cmdlines: map<nat, seq<string>>, pid: nat): seq<string> {
    if pid in cmdlines then cmdlines[pid] else []
  }

  predicate Named(comms: map<nat, string>, pid: nat) { pid in comms && comms[pid] != "" }

  /** A process whose name could not be read; the port reaper does not look at names. */
  predicate Unreadable(target: Target, comms: map<nat, string>, pid: nat) {
    !target.EmulatorPort? && pid in comms && comms[pid] == ""
  }

  /** The processes a reaper is after. The port reaper walks the command lines, the others the names. */
  ghost predicate Owned(target: Target, comms: map<nat, string>, cmdlines: map<nat, seq<string>>, pid: nat) {
    && (if target.EmulatorPort? then pid in cmdlines else Named(comms, pid) && InClass(target, comms[pid]))
    && OwnsArgv(target, Argv(cmdlines, pid))
  }

  method Owns(target: Target, argv: seq<string>) returns (r: bool)
    ensures r <==> OwnsArgv(target, argv)
  {
    match target
    case Emulator(avdName) => r := ArgvHasAdjacent(argv, "-avd", avdName);
    case Cuttlefish(token) => r := ArgvContains(argv, token);
    case EmulatorPort(port) => r := ArgvHasAdjacent(argv, "-port", Decimal.IntText(port));
  }

  /** Walk the process table in any order. */
  method FindOwned(target: Target, comms: map<nat, string>, cmdlines: map<nat, seq<string>>)
    returns (found: seq<nat>, skipped: seq<nat>)
    ensures Distinct(found) && forall pid :: pid in found <==> Owned(target, comms, cmdlines, pid)
    ensures Distinct(skipped) && forall pid :: pid in skipped <==> Unreadable(target, comms, pid)
  {
    found, skipped := [], [];
    var table := if target.EmulatorPort? then cmdlines.Keys else comms.Keys;
    var todo: set<nat> := table;
    while todo != {}
      invariant todo <= table && Distinct(found) && Distinct(skipped)
      invariant forall pid :: pid in found <==> pid in table && pid !in todo && Owned(target, comms, cmdlines, pid)
      invariant forall pid :: pid in skipped <==> pid !in todo && Unreadable(target, comms, pid)
      decreases todo
    {
      var pid :| pid in todo;
      todo := todo - {pid};
      if !target.EmulatorPort? && comms[pid] == "" {
        skipped := skipped + [pid];
      } else {
        var owned := Owns(target, Argv(cmdlines, pid));
        if owned && (target.EmulatorPort? || InClass(target, comms[pid])) { found := found + [pid]; }
      }
    }
  }

  // --------------------------------------------------------------------------- escalation

  /** The elements of `s` in (or, without `within`, outside) `t`, in order. */
  function Keep(s: seq<nat>, t: set<nat>, within: bool): seq<nat> {
    if s == [] then []
    else
      var n := |s| - 1;
      Keep(s[..n], t, within) + if (s[n] in t) == within then [s[n]] else []
  }

  lemma {:induction false} KeepMembers(s: seq<nat>, t: set<nat>, within: bool, pid: nat)
    ensures pid in Keep(s, t, within) <==> pid in s && (pid in t) == within
  {
    if s == [] {
    } else {
      KeepMembers(s[..|s| - 1], t, within, pid);
      assert s == s[..|s| - 1] + [s[|s| - 1]];
    }
  }

  lemma Push(s: seq<nat>, more: seq<nat>)
    ensures multiset(s + more) == multiset(s) + multiset(more)
  {
  }

  lemma {:induction false} KeepSplits(s: seq<nat>, t: set<nat>)
    ensures multiset(Keep(s, t, true)) + multiset(Keep(s, t, false)) == multiset(s)
  {
    if s == [] {
      assert Keep(s, t, true) == Keep(s, t, false) == [];
    } else {
      var n := |s| - 1;
      var last := s[n];
      KeepSplits(s[..n], t);
      assert s == s[..n] + [last];
      Push(s[..n], [last]);
      if last in t { Push(Keep(s[..n], t, true), [last]); } else { Push(Keep(s[..n], t, false), [last]); }
    }
  }

  lemma KeepNext(s: seq<nat>, t: set<nat>, within: bool, i: nat)
    requires i < |s|
    ensures Keep(s[..i + 1], t, within) == Keep(s[..i], t, within) + if (s[i] in t) == within then [s[i]] else []
  {
    assert s[..i + 1][..i] == s[..i];
  }

  function Signals(pids: seq<nat>, signal: Signal): seq<Sent> {
    seq(|pids|, i requires 0 <= i < |pids| => Sent(pids[i], signal))
  }

  /** The outcome of a grace period: how it ended, who was alive at its last poll, and how many polls there were. */
  datatype Watched = Watched(ending: Ending, stragglers: seq<nat>, polled: nat)

  function Watch(found: seq<nat>, polls: seq<Poll>, n: nat, last: seq<nat>): Watched
    requires n <= |polls|
    decreases |polls| - n
  {
    if n == |polls| then Watched(Finished, last, n)
    else if polls[n].cancelled then Watched(Cancelled, last, n)
    else
      var alive := Keep(found, polls[n].alive, true);
      if alive == [] then Watched(Finished, [], n + 1) else Watch(found, polls, n + 1, alive)
  }

  /** Who was alive at the last of `n` polls; with no poll, nobody was seen. */
  function Seen(found: seq<nat>, polls: seq<Poll>, n: nat): seq<nat>
    requires n <= |polls|
  {
    if n == 0 then [] else Keep(found, polls[n - 1].alive, true)
  }

  /** A watch goes on exactly while nobody cancels, the deadline is ahead and somebody is alive. */
  lemma {:induction false} WatchLast(found: seq<nat>, polls: seq<Poll>, n: nat)
    requires n <= |polls|
    ensures var w := Watch(found, polls, n, Seen(found, polls, n));
      && n <= w.polled <= |polls| && w.stragglers == Seen(found, polls, w.polled)
      && (forall i :: n <= i < w.polled ==> !polls[i].cancelled)
      && (forall i :: n < i < w.polled ==> Seen(found, polls, i) != [])
      && match w.ending
         case Cancelled => w.polled < |polls| && polls[w.polled].cancelled
         case Finished => w.polled == |polls| || (w.polled > n && w.stragglers == [])
         case WalkFailed => false
    decreases |polls| - n
  {
    hide Keep;
    if n < |polls| && !polls[n].cancelled && Seen(found, polls, n + 1) != [] {
      WatchLast(found, polls, n + 1);
    }
  }

  class Killer {
    var log: seq<Sent>

    method SignalAll(pids: seq<nat>, signal: Signal)
      modifies this
      ensures log == old(log) + Signals(pids, signal)
    {
      for i := 0 to |pids|
        invariant log == old(log) + Signals(pids[..i], signal)
      {
        assert Signals(pids[..i + 1], signal) == Signals(pids[..i], signal) + [Sent(pids[i], signal)];
        log := log + [Sent(pids[i], signal)];
      }
      assert pids[..|pids|] == pids;
    }

    /** Poll until the deadline, until nobody is left, or until the context is cancelled. */
    method Wait(found: seq<nat>, polls: seq<Poll>) returns (w: Watched)
      ensures w == Watch(found, polls, 0, [])
    {
      var stragglers, polled := [], 0;
      while polled < |polls|
        invariant polled <= |polls|
        invariant Watch(found, polls, 0, []) == Watch(found, polls, polled, stragglers)
      {
        if polls[polled].cancelled { return Watched(Cancelled, stragglers, polled); }
        var alive := [];
        for i := 0 to |found|
          invariant alive == Keep(found[..i], polls[polled].alive, true)
        {
          KeepNext(found, polls[polled].alive, true, i);
          if found[i] in polls[polled].alive { alive := alive + [found[i]]; }
        }
        assert found[..|found|] == found;
        stragglers, polled := alive, polled + 1;
        if |stragglers| == 0 { return Watched(Finished, [], polled); }
      }
      w := Watched(Finished, stragglers, polled);
    }

    /** The found processes that were not stragglers. */
    method Departed(found: seq<nat>, stragglers: seq<nat>) returns (terminated: seq<nat>)
      ensures terminated == Keep(found, set p | p in stragglers, false)
    {
      ghost var left := set p | p in stragglers;
      var gone: map<nat, bool> := map[];
      for i := 0 to |found|
        invariant forall p :: p in gone <==> p in found[..i]
        invariant forall p <- gone :: gone[p]
      {
        gone := gone[found[i] := true];
      }
      assert found[..|found|] == found;
      for i := 0 to |stragglers|
        invariant forall p <- found :: p in gone
        invariant forall p <- gone :: gone[p] <==> p !in stragglers[..i]
      {
        gone := gone[stragglers[i] := false];
      }
      assert stragglers[..|stragglers|] == stragglers;
      terminated := [];
      for i := 0 to |found|
        invariant terminated == Keep(found[..i], left, false)
      {
        KeepNext(found, left, false, i);
        assert found[i] in found;
        if gone[found[i]] { terminated := terminated + [found[i]]; }
      }
      assert found[..|found|] == found;
    }

    /** KILL to the stragglers, sorted by whether it could be delivered. */
    method KillAll(stragglers: seq<nat>, killable: set<nat>) returns (killed: seq<nat>, surviving: seq<nat>)
      modifies this
      ensures log == old(log) + Signals(stragglers, Kill)
      ensures killed == Keep(stragglers, killable, true) && surviving == Keep(stragglers, killable, false)
    {
      killed, surviving := [], [];
      for i := 0 to |stragglers|
        invariant log == old(log) + Signals(stragglers[..i], Kill)
        invariant killed == Keep(stragglers[..i], killable, true) && surviving == Keep(stragglers[..i], killable, false)
      {
        KeepNext(stragglers, killable, true, i);
        KeepNext(stragglers, killable, false, i);
        assert Signals(stragglers[..i + 1], Kill) == Signals(stragglers[..i], Kill) + [Sent(stragglers[i], Kill)];
        log := log + [Sent(stragglers[i], Kill)];
        if stragglers[i] in killable {
          killed := killed + [stragglers[i]];
        } else {
          surviving := surviving + [stragglers[i]];
        }
      }
      assert stragglers[..|stragglers|] == stragglers;
    }

    /** Cleanup and KillByPort: find, TERM, wait, KILL. The port reaper keeps no list of who left by itself. */
    method Reap(target: Target, comms: Option<map<nat, string>>, cmdlines: Option<map<nat, seq<string>>>,
                polls: seq<Poll>, killable: set<nat>)
      returns (report: Report, ending: Ending, ghost polled: nat)
      modifies this
      ensures target == Emulator("") || target == Cuttlefish("") ==>
        report == NOTHING && ending.Finished? && log == old(log)
      ensures target != Emulator("") && target != Cuttlefish("") && WalkFails(target, comms, cmdlines) ==>
        report == NOTHING && ending.WalkFailed? && log == old(log)
      ensures target != Emulator("") && target != Cuttlefish("") && !WalkFails(target, comms, cmdlines) ==>
        && old(log) <= log
        && Reaped(target, Table(comms), cmdlines.value, polls, killable, report, ending, polled, log[|old(log)|..])
    {
      report, ending, polled := NOTHING, Finished, 0;
      if Refused(target) { return; }
      if WalkFails(target, comms, cmdlines) {
        ending := WalkFailed;
        return;
      }
      var found, skipped := FindOwned(target, Table(comms), cmdlines.value);
      report := report.(found := found, skipped := skipped);
      if |found| == 0 { return; }
      SignalAll(found, Term);
      var w := Wait(found, polls);
      WatchLast(found, polls, 0);
      ending, polled := w.ending, w.polled;
      if ending.Cancelled? { return; }
      var terminated := [];
      if !target.EmulatorPort? { terminated := Departed(found, w.stragglers); }
      var killed, surviving := KillAll(w.stragglers, killable);
      report := report.(terminated := terminated, killed := killed, surviving := surviving);
      assert log == old(log) + (Signals(found, Term) + Signals(w.stragglers, Kill));
    }
  }

  function Table(comms: Option<map<nat, string>>): map<nat, string> { if comms.Some? then comms.value else map[] }

  /** The process table cannot be read; the port reaper needs the command lines only. */
  predicate WalkFails(target: Target, comms: Option<map<nat, string>>, cmdlines: Option<map<nat, seq<string>>>) {
    cmdlines.None? || (comms.None? && !target.EmulatorPort?)
  }

  /** What a reaper that could read the process table reports and sends. */
  ghost predicate Reaped(target: Target, comms: map<nat, string>, cmdlines: map<nat, seq<string>>, polls: seq<Poll>,
                         killable: set<nat>, report: Report, ending: Ending, polled: nat, sent: seq<Sent>)
  {
    && Distinct(report.found) && (forall pid :: pid in report.found <==> Owned(target, comms, cmdlines, pid))
    && Distinct(report.skipped)
    && (forall pid :: pid in report.skipped <==> Unreadable(target, comms, pid))
    && polled <= |polls| && (forall i :: 0 <= i < polled ==> !polls[i].cancelled)
    && (forall i :: 0 < i < polled ==> Seen(report.found, polls, i) != [])
    && var stragglers := Seen(report.found, polls, polled);
      match ending
      case WalkFailed => false
      case Cancelled =>
        && polled < |polls| && polls[polled].cancelled
        && sent == Signals(report.found, Term)
        && report.terminated == report.killed == report.surviving == []
      case Finished =>
        && (polled == |polls| || stragglers == [])
        && sent == Signals(report.found, Term) + Signals(stragglers, Kill)
        && report.killed == Keep(stragglers, killable, true) && report.surviving == Keep(stragglers, killable, false)
        && report.terminated == if target.EmulatorPort? then [] else Keep(report.found, set p | p in stragglers, false)
  }

  /** Only processes that carry the ownership token are signalled. */
  lemma OnlyOwnedSignalled(target: Target, comms: map<nat, string>, cmdlines: map<nat, seq<string>>, polls: seq<Poll>,
                           killable: set<nat>, report: Report, ending: Ending, polled: nat, sent: seq<Sent>, k: nat)
    requires Reaped(target, comms, cmdlines, polls, killable, report, ending, polled, sent) && k < |sent|
    ensures Owned(target, comms, cmdlines, sent[k].pid)
  {
    var found := report.found;
    if k < |found| {
      assert sent[k].pid == found[k] && found[k] in found;
    } else {
      var stragglers := Seen(found, polls, polled);
      assert sent[k].pid == stragglers[k - |found|];
      KeepMembers(found, polls[polled - 1].alive, true, sent[k].pid);
    }
  }

  /** KILL goes only to a process that was sent TERM before and was alive at the last poll. */
  lemma KillFollowsTerm(target: Target, comms: map<nat, string>, cmdlines: map<nat, seq<string>>, polls: seq<Poll>,
                        killable: set<nat>, report: Report, ending: Ending, polled: nat, sent: seq<Sent>, k: nat)
    requires Reaped(target, comms, cmdlines, polls, killable, report, ending, polled, sent)
    requires k < |sent| && sent[k].signal.Kill?
    ensures polled > 0 && sent[k].pid in polls[polled - 1].alive
    ensures Sent(sent[k].pid, Term) in sent[..k]
  {
    var found, pid := report.found, sent[k].pid;
    assert k >= |found|;
    var stragglers := Seen(found, polls, polled);
    assert pid == stragglers[k - |found|];
    KeepMembers(found, polls[polled - 1].alive, true, pid);
    var i :| 0 <= i < |found| && found[i] == pid;
    assert sent[..k][i] == Sent(pid, Term);
  }

  /**
   * On a normal return the found processes are split, each once, into those that left by themselves,
   * those killed and those that survive; and a process counts as gone exactly when it was not alive at
   * the last poll, or when there was no poll at all.
   */
  lemma ReportPartitions(target: Target, comms: map<nat, string>, cmdlines: map<nat, seq<string>>, polls: seq<Poll>,
                         killable: set<nat>, report: Report, polled: nat, sent: seq<Sent>)
    requires Reaped(target, comms, cmdlines, polls, killable, report, Finished, polled, sent) && !target.EmulatorPort?
    ensures multiset(report.terminated) + multiset(report.killed) + multiset(report.surviving) == multiset(report.found)
    ensures forall pid <- report.found :: multiset(report.found)[pid] == 1
    ensures forall pid <- report.found :: pid in report.terminated <==> polled == 0 || pid !in polls[polled - 1].alive
    ensures forall pid <- report.found :: pid in report.killed <==> pid !in report.terminated && pid in killable
  {
    var found, stragglers := report.found, Seen(report.found, polls, polled);
    var left := set p | p in stragglers;
    KeepSplits(stragglers, killable);
    KeepSplits(found, left);
    if polled > 0 {
      KeepAgree(found, polls[polled - 1].alive, left);
    } else {
      KeepNone(found, left);
    }
    forall pid <- found
      ensures multiset(found)[pid] == 1
      ensures pid in report.terminated <==> polled == 0 || pid !in polls[polled - 1].alive
      ensures pid in report.killed <==> pid !in report.terminated && pid in killable
    {
      DistinctOnce(found, pid);
      KeepMembers(found, left, false, pid);
      KeepMembers(stragglers, killable, true, pid);
      if polled > 0 { KeepMembers(found, polls[polled - 1].alive, true, pid); }
    }
  }

  /** Filtering by the survivors of a filter is the filter. */
  lemma KeepAgree(s: seq<nat>, t: set<nat>, left: set<nat>)
    requires left == set p | p in Keep(s, t, true)
    ensures Keep(s, left, true) == Keep(s, t, true)
  {
    forall pid <- s ensures pid in left <==> pid in t { KeepMembers(s, t, true, pid); }
    KeepSame(s, t, left);
  }

  lemma {:induction false} KeepSame(s: seq<nat>, t: set<nat>, left: set<nat>)
    requires forall pid <- s :: pid in left <==> pid in t
    ensures Keep(s, left, true) == Keep(s, t, true)
  {
    if s == [] {
    } else {
      assert s[|s| - 1] in s;
      KeepSame(s[..|s| - 1], t, left);
    }
  }

  lemma {:induction false} KeepNone(s: seq<nat>, t: set<nat>)
    requires t == {}
    ensures Keep(s, t, true) == []
  {
    if s != [] { KeepNone(s[..|s| - 1], t); }
  }

  lemma {:induction false} DistinctOnce(s: seq<nat>, pid: nat)
    requires Distinct(s)
    ensures multiset(s)[pid] == if pid in s then 1 else 0
  {
    if s == [] {
    } else {
      var n := |s| - 1;
      DistinctOnce(s[..n], pid);
      assert s == s[..n] + [s[n]];
      assert s[n] !in s[..n];
    }
  }
}
