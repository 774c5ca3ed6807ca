/**
 * What the answers of the collaborators decide about a boot. Map order decides with which of its profiles a
 * compose group is brought up, and, because the distributor reports only a number, which endpoints count as
 * missed: most of the outcome does not depend on that, the verdict may.
 */
module BootVerdict {
  import opened Prelude
  import opened Boot

  // ------------------------------------------------------------------- what a rerun repeats

  /** Both choices of profiles get the same answer for the file. */
  predicate AlikeAt(a: Answers, pf: Profiles, pf': Profiles, f: string) {
    (f in pf <==> f in pf') && (f in pf ==> (ComesUp(a, pf, f) <==> ComesUp(a, pf', f)))
  }

  ghost predicate Alike(a: Answers, pf: Profiles, pf': Profiles) { forall f :: AlikeAt(a, pf, pf', f) }

  /** Only candidates depend on who was missed, and only members of a group on the answer to its profile. */
  lemma OutsideCandidates(stage: Stage, cfg: Config, eps: Endpoints, a: Answers, pf: Profiles, missed: set<string>,
                          pf': Profiles, missed': set<string>, n: string)
    requires n in eps && n !in Candidates(cfg, eps, a) && AlikeAt(a, pf, pf', eps[n].composeFile)
    ensures StatusAt(stage, cfg, eps, a, pf, missed, n) == StatusAt(stage, cfg, eps, a, pf', missed', n)
  {
  }

  predicate CandidateEntry(o: Option<Status>) { o.None? || o.value.Distributed? || o.value.Failed? }

  lemma CandidateStatus(stage: Stage, cfg: Config, eps: Endpoints, a: Answers, pf: Profiles, missed: set<string>,
                        n: string)
    requires n in Candidates(cfg, eps, a) && n in eps && (!stage.AfterDiscovery? ==> pf.Keys == ComposeFiles(cfg, eps))
    ensures match StatusAt(stage, cfg, eps, a, pf, missed, n)
      case None => stage.AfterDiscovery? || stage.AfterCompose?
      case Some(st) =>
        && (stage.AfterDistribution? || stage.AfterHealth?) && (st.Distributed? || st.Failed?)
        && (stage.AfterDistribution? ==> (st.Distributed? <==> n !in missed))
  {
  }

  /** Two result maps that agree outside `cands`, where neither has status `s`, have it equally often. */
  lemma SameWith(results: Results, results': Results, cands: set<string>, s: Status)
    requires forall n :: n !in cands ==> Entry(results, n) == Entry(results', n)
    requires forall n <- cands :: Entry(results, n) != Some(s) && Entry(results', n) != Some(s)
    ensures With(results, s) == With(results', s)
  {
    forall n ensures n in With(results, s) <==> n in With(results', s) {
      assert n in With(results, s) <==> Entry(results, n) == Some(s);
      assert n in With(results', s) <==> Entry(results', n) == Some(s);
    }
  }

  /**
   * What the answers alone decide, whatever order the maps were walked in and whatever the manager held before:
   * every endpoint that is neither a candidate nor in a group whose profiles are answered differently, the
   * skipped counter, and before the health checks the discovered one.
   */
  lemma RerunsAgree(stage: Stage, cfg: Config, eps: Endpoints, a: Answers,
                    pf: Profiles, missed: set<string>, results: Results, sum: Summary,
                    pf': Profiles, missed': set<string>, results': Results, sum': Summary)
    requires Settled(stage, cfg, eps, a, pf, missed, results, sum)
    requires Settled(stage, cfg, eps, a, pf', missed', results', sum')
    ensures forall n <- eps :: n !in Candidates(cfg, eps, a) && AlikeAt(a, pf, pf', eps[n].composeFile) ==>
      Entry(results, n) == Entry(results', n)
    ensures sum.skipped == sum'.skipped
    ensures !stage.AfterHealth? ==> sum.discovered == sum'.discovered
  {
    hide StatusAt, Candidates, Accounts;
    forall n <- eps | n !in Candidates(cfg, eps, a) && AlikeAt(a, pf, pf', eps[n].composeFile)
      ensures Entry(results, n) == Entry(results', n)
    {
      OutsideCandidates(stage, cfg, eps, a, pf, missed, pf', missed', n);
    }
    SkippedCount(stage, cfg, eps, a, pf, missed, results, sum);
    SkippedCount(stage, cfg, eps, a, pf', missed', results', sum');
    if !stage.AfterHealth? {
      DiscoveredCount(stage, cfg, eps, a, pf, missed, results, sum);
      DiscoveredCount(stage, cfg, eps, a, pf', missed', results', sum');
    }
  }

  /** Groups are enabled, so the skipped endpoints are the disabled ones. */
  lemma SkippedCount(stage: Stage, cfg: Config, eps: Endpoints, a: Answers, pf: Profiles, missed: set<string>,
                     results: Results, sum: Summary)
    requires Settled(stage, cfg, eps, a, pf, missed, results, sum)
    ensures sum.skipped == |set n | n in eps && !eps[n].enabled|
  {
    hide Chosen, StatusAt, Accounts;
    var off := set n | n in eps && !eps[n].enabled;
    forall n ensures n in off <==> Entry(results, n) == Some(Skipped) {
      if n in eps { SkippedStatus(stage, cfg, eps, a, pf, missed, n); }
    }
    WithIs(results, Skipped, off);
    SkippedCounter(results, sum, HiddenAt(stage, cfg, eps, a, pf), SparedAt(stage, eps, missed));
  }

  lemma SkippedCounter(results: Results, sum: Summary, hidden: set<string>, spared: set<string>)
    requires Accounts(results, sum, hidden, spared)
    ensures sum.skipped == |With(results, Skipped)| && sum.discovered == |With(results, Discovered)| + |hidden|
  {
  }

  lemma WithIs(results: Results, st: Status, t: set<string>)
    requires forall n :: n in t <==> Entry(results, n) == Some(st)
    ensures With(results, st) == t
  {
    forall n ensures n in With(results, st) <==> n in t { assert n in t <==> Entry(results, n) == Some(st); }
  }

  lemma CountSplit(whole: set<string>, part: set<string>)
    requires part <= whole
    ensures |whole - part| == |whole| - |part|
  {
    assert whole == (whole - part) + part;
  }

  lemma SkippedStatus(stage: Stage, cfg: Config, eps: Endpoints, a: Answers, pf: Profiles, missed: set<string>,
                      n: string)
    requires n in eps
    ensures StatusAt(stage, cfg, eps, a, pf, missed, n) == Some(Skipped) <==> !eps[n].enabled
  {
  }

  ghost function FoundOnes(cfg: Config, eps: Endpoints, a: Answers): set<string> {
    set n | n in eps && Status1(cfg, a, n, eps[n]) == Some(Discovered)
  }

  /** Before the health checks the counter is the number of endpoints found, overwritten or not. */
  lemma DiscoveredCount(stage: Stage, cfg: Config, eps: Endpoints, a: Answers, pf: Profiles, missed: set<string>,
                        results: Results, sum: Summary)
    requires Settled(stage, cfg, eps, a, pf, missed, results, sum) && !stage.AfterHealth?
    ensures sum.discovered == |FoundOnes(cfg, eps, a)|
  {
    hide Chosen, StatusAt, FoundOnes, HiddenAt, Accounts;
    var found, hidden := FoundOnes(cfg, eps, a), HiddenAt(stage, cfg, eps, a, pf);
    HiddenAreFound(stage, cfg, eps, a, pf);
    forall n ensures n in found - hidden <==> Entry(results, n) == Some(Discovered) {
      if n in eps { DiscoveredStatus(stage, cfg, eps, a, pf, missed, n); }
    }
    WithIs(results, Discovered, found - hidden);
    CountSplit(found, hidden);
    SkippedCounter(results, sum, hidden, SparedAt(stage, eps, missed));
  }

  lemma HiddenAreFound(stage: Stage, cfg: Config, eps: Endpoints, a: Answers, pf: Profiles)
    ensures HiddenAt(stage, cfg, eps, a, pf) <= FoundOnes(cfg, eps, a)
    ensures FoundOnes(cfg, eps, a) <= eps.Keys
  {
  }

  lemma DiscoveredStatus(stage: Stage, cfg: Config, eps: Endpoints, a: Answers, pf: Profiles, missed: set<string>,
                         n: string)
    requires n in eps && !stage.AfterHealth?
    ensures StatusAt(stage, cfg, eps, a, pf, missed, n) == Some(Discovered) <==>
      n in FoundOnes(cfg, eps, a) && n !in HiddenAt(stage, cfg, eps, a, pf)
  {
  }

  /** With profiles answered alike the other counters agree too, and with the same endpoints missed everything does. */
  lemma AlikeRerunsAgree(stage: Stage, cfg: Config, eps: Endpoints, a: Answers,
                         pf: Profiles, missed: set<string>, results: Results, sum: Summary,
                         pf': Profiles, missed': set<string>, results': Results, sum': Summary)
    requires Settled(stage, cfg, eps, a, pf, missed, results, sum)
    requires Settled(stage, cfg, eps, a, pf', missed', results', sum') && Alike(a, pf, pf')
    ensures sum.started == sum'.started && sum.discovered == sum'.discovered
    ensures !stage.AfterHealth? ==> sum.remote == sum'.remote
    ensures missed == missed' ==> results == results' && sum == sum'
  {
    hide StatusAt, Candidates;
    var cands := Candidates(cfg, eps, a);
    forall n | n !in cands ensures Entry(results, n) == Entry(results', n) {
      if n in eps {
        assert AlikeAt(a, pf, pf', eps[n].composeFile);
        OutsideCandidates(stage, cfg, eps, a, pf, missed, pf', missed', n);
        assert Entry(results, n) == StatusAt(stage, cfg, eps, a, pf, missed, n);
      }
    }
    forall n <- cands
      ensures CandidateEntry(Entry(results, n)) && CandidateEntry(Entry(results', n))
    {
      CandidatesKnown(cfg, eps, a, n);
      CandidateStatus(stage, cfg, eps, a, pf, missed, n);
      CandidateStatus(stage, cfg, eps, a, pf', missed', n);
    }
    HiddenAlike(stage, cfg, eps, a, pf, pf');
    SameWith(results, results', cands, Started);
    SameWith(results, results', cands, Discovered);
    SameWith(results, results', cands, Remote);
    if stage.AfterDistribution? {
      DistributedCount(cfg, eps, a, pf, missed, results, sum);
      DistributedCount(cfg, eps, a, pf', missed', results', sum');
    } else if !stage.AfterHealth? {
      NoneDistributed(stage, cfg, eps, a, pf, missed, results, sum);
      NoneDistributed(stage, cfg, eps, a, pf', missed', results', sum');
    }
    if missed == missed' { EqualReruns(stage, cfg, eps, a, pf, pf', missed, results, sum, results', sum'); }
  }

  lemma EqualReruns(stage: Stage, cfg: Config, eps: Endpoints, a: Answers, pf: Profiles, pf': Profiles,
                    missed: set<string>, results: Results, sum: Summary, results': Results, sum': Summary)
    requires Settled(stage, cfg, eps, a, pf, missed, results, sum)
    requires Settled(stage, cfg, eps, a, pf', missed, results', sum') && Alike(a, pf, pf')
    ensures results == results' && sum == sum'
  {
    hide StatusAt, Candidates, Accounts;
    forall n ensures Entry(results, n) == Entry(results', n) {
      if n in eps {
        assert Entry(results, n) == StatusAt(stage, cfg, eps, a, pf, missed, n);
        assert AlikeAt(a, pf, pf', eps[n].composeFile);
        StatusAlike(stage, cfg, eps, a, pf, pf', missed, n);
      }
    }
    SameEntries(results, results');
    HiddenAlike(stage, cfg, eps, a, pf, pf');
    SumsAgree(results, sum, sum', HiddenAt(stage, cfg, eps, a, pf), SparedAt(stage, eps, missed));
  }

  lemma StatusAlike(stage: Stage, cfg: Config, eps: Endpoints, a: Answers, pf: Profiles, pf': Profiles,
                    missed: set<string>, n: string)
    requires n in eps && AlikeAt(a, pf, pf', eps[n].composeFile)
    ensures StatusAt(stage, cfg, eps, a, pf, missed, n) == StatusAt(stage, cfg, eps, a, pf', missed, n)
  {
  }

  lemma HiddenAlike(stage: Stage, cfg: Config, eps: Endpoints, a: Answers, pf: Profiles, pf': Profiles)
    requires Alike(a, pf, pf')
    ensures HiddenAt(stage, cfg, eps, a, pf) == HiddenAt(stage, cfg, eps, a, pf')
  {
    forall n <- eps ensures AlikeAt(a, pf, pf', eps[n].composeFile) {}
  }

  lemma CandidatesKnown(cfg: Config, eps: Endpoints, a: Answers, n: string)
    requires n in Candidates(cfg, eps, a)
    ensures n in eps
  {
  }

  /** Outside the candidates nobody is distributed. */
  lemma DistributedAreCandidates(stage: Stage, cfg: Config, eps: Endpoints, a: Answers, pf: Profiles,
                                 missed: set<string>, n: string)
    requires n in eps && StatusAt(stage, cfg, eps, a, pf, missed, n) == Some(Distributed)
    ensures n in Candidates(cfg, eps, a) && (stage.AfterDistribution? || stage.AfterHealth?)
  {
  }

  lemma DistributedCount(cfg: Config, eps: Endpoints, a: Answers, pf: Profiles, missed: set<string>, results: Results,
                         sum: Summary)
    requires Settled(AfterDistribution, cfg, eps, a, pf, missed, results, sum)
    ensures |With(results, Distributed)| == Clamp(a.deployed, |Candidates(cfg, eps, a)|)
  {
    hide StatusAt, Candidates, Accounts, Offered;
    var cands := Candidates(cfg, eps, a);
    forall n ensures n in cands - missed <==> Entry(results, n) == Some(Distributed) {
      if n in cands { CandidatesKnown(cfg, eps, a, n); }
      if n in eps { DistributedStatus(cfg, eps, a, pf, missed, n); }
    }
    WithIs(results, Distributed, cands - missed);
    CountSplit(cands, missed);
  }

  lemma DistributedStatus(cfg: Config, eps: Endpoints, a: Answers, pf: Profiles, missed: set<string>, n: string)
    requires n in eps && pf.Keys == ComposeFiles(cfg, eps)
    ensures StatusAt(AfterDistribution, cfg, eps, a, pf, missed, n) == Some(Distributed) <==>
      n in Candidates(cfg, eps, a) && n !in missed
  {
    hide StatusAt, Candidates;
    if n in Candidates(cfg, eps, a) {
      CandidateStatus(AfterDistribution, cfg, eps, a, pf, missed, n);
    } else if StatusAt(AfterDistribution, cfg, eps, a, pf, missed, n) == Some(Distributed) {
      DistributedAreCandidates(AfterDistribution, cfg, eps, a, pf, missed, n);
    }
  }

  lemma NoneDistributed(stage: Stage, cfg: Config, eps: Endpoints, a: Answers, pf: Profiles, missed: set<string>,
                        results: Results, sum: Summary)
    requires Settled(stage, cfg, eps, a, pf, missed, results, sum) && (stage.AfterDiscovery? || stage.AfterCompose?)
    ensures With(results, Distributed) == {}
  {
    hide StatusAt, Accounts;
    forall n ensures n !in With(results, Distributed) {
      assert n in With(results, Distributed) <==> Entry(results, n) == Some(Distributed);
      if n in eps && StatusAt(stage, cfg, eps, a, pf, missed, n) == Some(Distributed) {
        DistributedAreCandidates(stage, cfg, eps, a, pf, missed, n);
      }
    }
  }

  lemma SameEntries(results: Results, results': Results)
    requires forall n :: Entry(results, n) == Entry(results', n)
    ensures results == results'
  {
    assert forall n :: n in results <==> Entry(results, n).Some?;
    assert forall n :: n in results' <==> Entry(results', n).Some?;
    assert forall n <- results :: Some(results[n]) == Entry(results, n) == Entry(results', n) == Some(results'[n]);
  }

  lemma SumsAgree(results: Results, sum: Summary, sum': Summary, hidden: set<string>, spared: set<string>)
    requires Accounts(results, sum, hidden, spared) && Accounts(results, sum', hidden, spared)
    ensures sum == sum'
  {
  }

  // ------------------------------------------------------------------------------ the verdict

  ghost predicate MissesRequired(eps: Endpoints, missed: set<string>) {
    exists n <- missed :: n in eps && eps[n].required
  }

  ghost predicate SomeCondemned(cfg: Config, eps: Endpoints, a: Answers) {
    exists n <- eps :: Condemned(cfg, eps, a, n)
  }

  ghost predicate GroupFails(a: Answers, pf: Profiles) { exists f <- pf :: !ComesUp(a, pf, f) }

  /** The run returns an error because of a failed endpoint. */
  ghost predicate Verdict(cfg: Config, eps: Endpoints, a: Answers, pf: Profiles, missed: set<string>) {
    SomeCondemned(cfg, eps, a) || GroupFails(a, pf) || MissesRequired(eps, missed)
  }

  lemma StatusFailedIff(cfg: Config, eps: Endpoints, a: Answers, pf: Profiles, missed: set<string>, n: string)
    requires n in eps && missed <= Candidates(cfg, eps, a)
    ensures Status5(cfg, eps, a, pf, missed, n) == Some(Failed) <==>
      n in missed || Condemned(cfg, eps, a, n) || (n !in Candidates(cfg, eps, a) && GroupFailed(a, pf, eps[n]))
  {
  }

  /** The endpoint's compose group did not come up. */
  predicate GroupFailed(a: Answers, pf: Profiles, ep: Endpoint) {
    Grouped(ep) && ep.composeFile in pf && !ComesUp(a, pf, ep.composeFile)
  }

  lemma ProperSubsetCount(a: set<string>, b: set<string>)
    requires a <= b
    ensures |b| - |a| > 0 <==> exists n <- b :: n !in a
  {
    assert b == a + (b - a);
    if n :| n in b && n !in a { assert n in b - a; }
  }

  /** The counted failures, and so the returned error, follow the verdict. */
  lemma FailedIffVerdict(cfg: Config, eps: Endpoints, a: Answers, pf: Profiles, missed: set<string>, results: Results,
                         sum: Summary)
    requires Settled(AfterHealth, cfg, eps, a, pf, missed, results, sum)
    ensures sum.failed > 0 <==> Verdict(cfg, eps, a, pf, missed)
  {
    hide Candidates, Status2, Condemned, Offered;
    var failed, spared := With(results, Failed), Spared(eps, missed);
    ProperSubsetCount(spared, failed);
    forall n ensures n in failed <==> n in eps && Status5(cfg, eps, a, pf, missed, n) == Some(Failed) {
      assert n in failed <==> Entry(results, n) == Some(Failed);
      if n in eps { assert Entry(results, n) == StatusAt(AfterHealth, cfg, eps, a, pf, missed, n); }
    }
    forall n <- eps ensures n in failed && n !in spared <==> FailsCounted(cfg, eps, a, pf, missed, n) {
      StatusFailedIff(cfg, eps, a, pf, missed, n);
      NotBoth(cfg, eps, a, pf, n);
    }
    if n :| n in eps && FailsCounted(cfg, eps, a, pf, missed, n) { assert n in failed; }
    CountedIffVerdict(cfg, eps, a, pf, missed);
  }

  /** The endpoint is failed and counted. */
  ghost predicate FailsCounted(cfg: Config, eps: Endpoints, a: Answers, pf: Profiles, missed: set<string>, n: string)
    requires n in eps
  {
    (n in missed && eps[n].required) || Condemned(cfg, eps, a, n) || GroupFailed(a, pf, eps[n])
  }

  /** A candidate is in no compose group, and an optional one is never condemned. */
  lemma NotBoth(cfg: Config, eps: Endpoints, a: Answers, pf: Profiles, n: string)
    requires pf.Keys == ComposeFiles(cfg, eps) && n in eps
    ensures n in Candidates(cfg, eps, a) ==> !GroupFailed(a, pf, eps[n])
    ensures Condemned(cfg, eps, a, n) ==> eps[n].required
  {
  }

  /** Every group tried has a member that fails with it. */
  lemma CountedIffVerdict(cfg: Config, eps: Endpoints, a: Answers, pf: Profiles, missed: set<string>)
    requires pf.Keys == ComposeFiles(cfg, eps) && missed <= Candidates(cfg, eps, a)
    ensures (exists n <- eps :: FailsCounted(cfg, eps, a, pf, missed, n)) <==> Verdict(cfg, eps, a, pf, missed)
  {
    if f :| f in pf && !ComesUp(a, pf, f) {
      var n :| n in eps && Grouped(eps[n]) && eps[n].composeFile == f;
      assert FailsCounted(cfg, eps, a, pf, missed, n);
    }
    if n :| n in missed && n in eps && eps[n].required { assert FailsCounted(cfg, eps, a, pf, missed, n); }
    if n :| n in eps && Condemned(cfg, eps, a, n) { assert FailsCounted(cfg, eps, a, pf, missed, n); }
    if n :| n in eps && FailsCounted(cfg, eps, a, pf, missed, n) {
      if !Condemned(cfg, eps, a, n) && GroupFailed(a, pf, eps[n]) { assert !ComesUp(a, pf, eps[n].composeFile); }
    }
  }

  ghost function Required(eps: Endpoints, ns: set<string>): set<string> {
    set n | n in ns && n in eps && eps[n].required
  }

  /** How many candidates the distributor's report leaves out. */
  ghost function Short(cfg: Config, eps: Endpoints, a: Answers): nat {
    |Candidates(cfg, eps, a)| - Clamp(a.deployed, |Candidates(cfg, eps, a)|)
  }

  lemma {:induction false} SubsetOfSize(s: set<string>, must: set<string>, size: nat) returns (t: set<string>)
    requires must <= s && |must| <= size <= |s|
    ensures must <= t <= s && |t| == size
    decreases |s| - |must|
  {
    if |must| == size {
      t := must;
    } else {
      assert s == must + (s - must);
      var n :| n in s - must;
      SubsetCount(must + {n}, s);
      t := SubsetOfSize(s, must + {n}, size);
    }
  }

  /** What map order may decide. */
  ghost predicate Possible(cfg: Config, eps: Endpoints, a: Answers, pf: Profiles, missed: set<string>) {
    Chosen(cfg, eps, pf) && Shortfall(cfg, eps, a, missed)
  }

  /** A group none of whose profiles comes up. */
  ghost predicate Hopeless(eps: Endpoints, a: Answers, f: string) {
    forall p :: Offers(eps, Group(eps, f), p) ==> !a.comesUp(Project(f, p))
  }

  /** A group all of whose profiles come up. */
  ghost predicate Dependable(eps: Endpoints, a: Answers, f: string) {
    forall p :: Offers(eps, Group(eps, f), p) ==> a.comesUp(Project(f, p))
  }

  /** A failed health check, a group without hope, or more endpoints missed than there are optional ones. */
  ghost predicate SureToFail(cfg: Config, eps: Endpoints, a: Answers) {
    var cands := Candidates(cfg, eps, a);
    || SomeCondemned(cfg, eps, a)
    || (exists f <- ComposeFiles(cfg, eps) :: Hopeless(eps, a, f))
    || Short(cfg, eps, a) > |cands - Required(eps, cands)|
  }

  /** No failed health check, only dependable groups, and nothing required that could be missed. */
  ghost predicate SureToPass(cfg: Config, eps: Endpoints, a: Answers) {
    && !SomeCondemned(cfg, eps, a)
    && (forall f <- ComposeFiles(cfg, eps) :: Dependable(eps, a, f))
    && (Short(cfg, eps, a) == 0 || Required(eps, Candidates(cfg, eps, a)) == {})
  }

  lemma MissesRequiredIff(eps: Endpoints, cands: set<string>, m: set<string>)
    requires m <= cands
    ensures MissesRequired(eps, m) <==> m * Required(eps, cands) != {}
  {
    if n :| n in m && n in eps && eps[n].required { assert n in m * Required(eps, cands); }
  }

  lemma GroupOffers(eps: Endpoints, f: string) returns (p: string)
    requires Group(eps, f) != {}
    ensures Offers(eps, Group(eps, f), p)
  {
    if n :| n in Group(eps, f) && eps[n].profile != "" { p := eps[n].profile; } else { p := ""; }
  }

  ghost predicate Picks(eps: Endpoints, f: string, p: string, good: bool, a: Answers) {
    && Offers(eps, Group(eps, f), p)
    && (good && !Hopeless(eps, a, f) ==> a.comesUp(Project(f, p)))
    && (!good && !Dependable(eps, a, f) ==> !a.comesUp(Project(f, p)))
  }

  lemma CanPick(cfg: Config, eps: Endpoints, a: Answers, f: string, good: bool)
    requires f in ComposeFiles(cfg, eps)
    ensures exists p :: Picks(eps, f, p, good, a)
  {
    var n :| n in eps && Grouped(eps[n]) && eps[n].composeFile == f;
    assert n in Group(eps, f);
    var p;
    if good && !Hopeless(eps, a, f) { p :| Offers(eps, Group(eps, f), p) && a.comesUp(Project(f, p)); }
    else if !good && !Dependable(eps, a, f) { p :| Offers(eps, Group(eps, f), p) && !a.comesUp(Project(f, p)); }
    else { p := GroupOffers(eps, f); }
    assert Picks(eps, f, p, good, a);
  }

  /** A choice of profiles that comes up (or, not being `good`, fails) wherever one does. */
  lemma PickAll(cfg: Config, eps: Endpoints, a: Answers, good: bool) returns (pf: Profiles)
    ensures Chosen(cfg, eps, pf)
    ensures good && (forall f <- ComposeFiles(cfg, eps) :: !Hopeless(eps, a, f)) ==> !GroupFails(a, pf)
    ensures !good && (exists f <- ComposeFiles(cfg, eps) :: !Dependable(eps, a, f)) ==> GroupFails(a, pf)
  {
    var files := ComposeFiles(cfg, eps);
    forall f <- files ensures exists p :: Picks(eps, f, p, good, a) { CanPick(cfg, eps, a, f, good); }
    pf := map f | f in files :: var p :| Picks(eps, f, p, good, a); p;
    assert pf.Keys == files;
    forall f <- pf ensures Picks(eps, f, pf[f], good, a) {}
    if !good && exists f <- files :: !Dependable(eps, a, f) {
      var f :| f in files && !Dependable(eps, a, f);
      assert f in pf && !ComesUp(a, pf, f);
    }
  }

  lemma MissOptional(cfg: Config, eps: Endpoints, a: Answers) returns (m: set<string>)
    requires var cands := Candidates(cfg, eps, a); Short(cfg, eps, a) <= |cands - Required(eps, cands)|
    ensures Shortfall(cfg, eps, a, m) && !MissesRequired(eps, m)
  {
    hide Candidates;
    var cands := Candidates(cfg, eps, a);
    m := SubsetOfSize(cands - Required(eps, cands), {}, Short(cfg, eps, a));
    MissesRequiredIff(eps, cands, m);
    assert m * Required(eps, cands) == {};
  }

  lemma MissRequired(cfg: Config, eps: Endpoints, a: Answers) returns (m: set<string>)
    ensures Shortfall(cfg, eps, a, m)
    ensures Short(cfg, eps, a) > 0 && Required(eps, Candidates(cfg, eps, a)) != {} ==> MissesRequired(eps, m)
  {
    hide Candidates;
    var cands := Candidates(cfg, eps, a);
    if Short(cfg, eps, a) > 0 && Required(eps, cands) != {} {
      var n :| n in Required(eps, cands);
      m := SubsetOfSize(cands, {n}, Short(cfg, eps, a));
      assert n in m;
    } else {
      m := SubsetOfSize(cands, {}, Short(cfg, eps, a));
    }
  }

  /** Whatever map order decides, the run fails: exactly when it is sure to. */
  lemma AlwaysFailsIff(cfg: Config, eps: Endpoints, a: Answers)
    ensures (forall pf, m :: Possible(cfg, eps, a, pf, m) ==> Verdict(cfg, eps, a, pf, m)) <==> SureToFail(cfg, eps, a)
  {
    hide Candidates, Condemned, Offers;
    var cands := Candidates(cfg, eps, a);
    if SureToFail(cfg, eps, a) {
      forall pf, m | Possible(cfg, eps, a, pf, m) ensures Verdict(cfg, eps, a, pf, m) {
        if f :| f in ComposeFiles(cfg, eps) && Hopeless(eps, a, f) { assert f in pf && !ComesUp(a, pf, f); }
        MissesRequiredIff(eps, cands, m);
        if m * Required(eps, cands) == {} {
          assert m <= cands - Required(eps, cands);
          SubsetCount(m, cands - Required(eps, cands));
        }
      }
    } else {
      var pf := PickAll(cfg, eps, a, true);
      var m := MissOptional(cfg, eps, a);
      assert Possible(cfg, eps, a, pf, m) && !Verdict(cfg, eps, a, pf, m);
    }
  }

  /** Whatever map order decides, the run succeeds: exactly when it is sure to. */
  lemma AlwaysPassesIff(cfg: Config, eps: Endpoints, a: Answers)
    ensures (forall pf, m :: Possible(cfg, eps, a, pf, m) ==> !Verdict(cfg, eps, a, pf, m)) <==> SureToPass(cfg, eps, a)
  {
    hide Candidates, Condemned, Offers;
    var cands := Candidates(cfg, eps, a);
    if SureToPass(cfg, eps, a) {
      forall pf, m | Possible(cfg, eps, a, pf, m) ensures !Verdict(cfg, eps, a, pf, m) {
        forall f <- pf ensures ComesUp(a, pf, f) { assert Dependable(eps, a, f); }
        MissesRequiredIff(eps, cands, m);
        if Short(cfg, eps, a) == 0 { assert m == {}; }
      }
    } else {
      var pf := PickAll(cfg, eps, a, false);
      var m := MissRequired(cfg, eps, a);
      assert Possible(cfg, eps, a, pf, m) && Verdict(cfg, eps, a, pf, m);
    }
  }

  /** The verdict is the same for everything map order may decide if and only if the run is sure to fail or to pass. */
  lemma VerdictFixedIff(cfg: Config, eps: Endpoints, a: Answers)
    ensures (forall pf, m, pf', m' :: Possible(cfg, eps, a, pf, m) && Possible(cfg, eps, a, pf', m') ==>
        (Verdict(cfg, eps, a, pf, m) <==> Verdict(cfg, eps, a, pf', m'))) <==>
      SureToFail(cfg, eps, a) || SureToPass(cfg, eps, a)
  {
    hide Possible, Verdict, SureToFail, SureToPass;
    AlwaysFailsIff(cfg, eps, a);
    AlwaysPassesIff(cfg, eps, a);
  }

  /** Every offered profile comes about: some walk over the group settles on it. */
  lemma EveryProfileHappens(eps: Endpoints, group: set<string>, profile: string) returns (walk: seq<string>)
    requires group <= eps.Keys && Offers(eps, group, profile)
    ensures Distinct(walk) && (forall n :: n in walk <==> n in group) && FirstProfile(eps, walk) == profile
  {
    if profile == "" {
      walk := Listed(group);
      NoProfile(eps, walk);
    } else {
      var n :| n in group && eps[n].profile == profile;
      var rest := Listed(group - {n});
      walk := [n] + rest;
      FirstStays(eps, n, rest);
    }
  }

  lemma {:induction false} NoProfile(eps: Endpoints, walk: seq<string>)
    requires forall n <- walk :: n in eps && eps[n].profile == ""
    ensures FirstProfile(eps, walk) == ""
  {
    if walk == [] {
    } else {
      NoProfile(eps, walk[..|walk| - 1]);
      assert walk[|walk| - 1] in walk;
    }
  }

  lemma {:induction false} FirstStays(eps: Endpoints, n: string, rest: seq<string>)
    requires n in eps && eps[n].profile != ""
    ensures FirstProfile(eps, [n] + rest) == eps[n].profile
  {
    if rest == [] {
      assert [n] + rest == [n] && [n][..0] == [];
    } else {
      var k := |rest| - 1;
      FirstStays(eps, n, rest[..k]);
      assert ([n] + rest)[..k + 1] == [n] + rest[..k];
    }
  }

  /** Every attribution comes about: some order of the candidates leaves out exactly these. */
  lemma EveryAttributionHappens(cfg: Config, eps: Endpoints, a: Answers, missed: set<string>)
    returns (names: seq<string>)
    requires Shortfall(cfg, eps, a, missed)
    ensures Distinct(names) && (forall n :: n in names <==> n in Candidates(cfg, eps, a))
    ensures |names| == |Candidates(cfg, eps, a)| && Missed(names, Clamp(a.deployed, |names|)) == missed
  {
    hide Candidates;
    var cands := Candidates(cfg, eps, a);
    var front := Listed(cands - missed);
    var back := Listed(missed);
    names := front + back;
    assert cands == (cands - missed) + missed;
    CandidatesListed(cands - missed, front);
    CandidatesListed(missed, back);
    DistinctConcat(front, back);
    MissedTail(front, back);
    assert Missed(names, |front|) == missed;
  }

  lemma DistinctConcat(front: seq<string>, back: seq<string>)
    requires Distinct(front) && Distinct(back) && forall n <- front :: n !in back
    ensures Distinct(front + back)
  {
    var names := front + back;
    forall i, j | 0 <= i < j < |names| ensures names[i] != names[j] {
      if i < |front| <= j { assert front[i] in front && back[j - |front|] in back; }
    }
  }

  lemma MissedTail(front: seq<string>, back: seq<string>)
    ensures forall n :: n in Missed(front + back, |front|) <==> n in back
  {
    var names := front + back;
    forall n | n in back ensures n in Missed(names, |front|) {
      var j :| 0 <= j < |back| && back[j] == n;
      assert names[|front| + j] == n;
    }
    forall n | n in Missed(names, |front|) ensures n in back {
      var j :| |front| <= j < |names| && names[j] == n;
      assert n == back[j - |front|];
    }
  }

  lemma {:induction false} Listed(s: set<string>) returns (names: seq<string>)
    ensures Distinct(names) && forall n :: n in names <==> n in s
  {
    if s == {} {
      names := [];
    } else {
      var n :| n in s;
      var rest := Listed(s - {n});
      names := [n] + rest;
    }
  }

  /** One required and one optional remote endpoint, one of them deployed: the same answers succeed or fail. */
  lemma VerdictExample()
    ensures var a, b := Endpoint(true, true, true, false, "", ""), Endpoint(true, false, true, false, "", "");
      var eps := map["a" := a, "b" := b];
      var cfg := Config(false, true, false, false);
      var a := Answers({}, _ => true, false, false, false, 1, {});
      && Possible(cfg, eps, a, map[], {"a"}) && Verdict(cfg, eps, a, map[], {"a"})
      && Possible(cfg, eps, a, map[], {"b"}) && !Verdict(cfg, eps, a, map[], {"b"})
  {
    var eps := map["a" := Endpoint(true, true, true, false, "", ""), "b" := Endpoint(true, false, true, false, "", "")];
    var cfg := Config(false, true, false, false);
    var a := Answers({}, _ => true, false, false, false, 1, {});
    assert Candidates(cfg, eps, a) == {"a", "b"};
  }

  /** Two required endpoints in one compose file with different profiles, only one of which comes up. */
  lemma ProfileExample()
    ensures var a := Endpoint(true, true, false, false, "c.yml", "x");
      var b := Endpoint(true, true, false, false, "c.yml", "y");
      var eps := map["a" := a, "b" := b];
      var cfg := Config(true, false, false, false);
      var a := Answers({}, (p: Project) => p.profile == "x", false, false, false, 0, {});
      && Possible(cfg, eps, a, map["c.yml" := "x"], {}) && !Verdict(cfg, eps, a, map["c.yml" := "x"], {})
      && Possible(cfg, eps, a, map["c.yml" := "y"], {}) && Verdict(cfg, eps, a, map["c.yml" := "y"], {})
  {
    var x, y := Endpoint(true, true, false, false, "c.yml", "x"), Endpoint(true, true, false, false, "c.yml", "y");
    var eps := map["a" := x, "b" := y];
    var cfg := Config(true, false, false, false);
    var a := Answers({}, (p: Project) => p.profile == "x", false, false, false, 0, {});
    assert "a" in Group(eps, "c.yml") && "b" in Group(eps, "c.yml");
    assert eps["a"].profile == "x" && eps["b"].profile == "y";
    assert Grouped(eps["a"]) && AllFiles(eps) == {"c.yml"};
    assert Candidates(cfg, eps, a) == {};
    assert !ComesUp(a, map["c.yml" := "y"], "c.yml");
  }
}
