/**
 * Concurrent Distribute and Undistribute calls and what runs: deploy attempts, the critical sections that hand
 * the placement list over, and the removals that follow them, in any interleaving. Every removal takes effect;
 * what removals without effect do is part of the sequential theory.
 */
module DistributionRaces {
  import opened Distribution

  /** What a deploy attempt does: nothing is removed or started, the old instance is removed, or a new one runs. */
  datatype Effect = Untouched | Removed | Replaced

  /**
   * `tracked` are the placements of the current list that need teardown. A Distribute in progress has tried some
   * instances and built some; a call past its critical section has removals pending.
   */
  datatype Shared = Shared(
    live: set<Instance>, tracked: set<Instance>, pending: map<nat, set<Instance>>,
    tried: map<nat, set<Instance>>, built: map<nat, set<Instance>>)

  datatype Step =
    | Begin(c: nat)
    | Attempt(c: nat, k: Instance, outcome: Effect)
    | Publish(c: nat)               // Distribute's critical section
    | TakeAll(c: nat)               // Undistribute's critical section
    | Teardown(c: nat, k: Instance)

  predicate Enabled(s: Shared, step: Step) {
    match step
    case Begin(c) => c !in s.built && c !in s.tried && c !in s.pending
    case Attempt(c, k, _) => c in s.built && c in s.tried && k !in s.tried[c]
    case Publish(c) => c in s.built && c in s.tried
    case TakeAll(c) => c !in s.built && c !in s.tried && c !in s.pending
    case Teardown(c, k) => c in s.pending && k in s.pending[c]
  }

  function Apply(s: Shared, step: Step): Shared
    requires Enabled(s, step)
  {
    match step
    case Begin(c) => s.(built := s.built[c := {}], tried := s.tried[c := {}])
    case Attempt(c, k, outcome) =>
      s.(tried := s.tried[c := s.tried[c] + {k}],
         built := if outcome.Replaced? then s.built[c := s.built[c] + {k}] else s.built,
         live := match outcome case Untouched => s.live case Removed => s.live - {k} case Replaced => s.live + {k})
    case Publish(c) =>
      s.(pending := s.pending[c := s.tracked - s.tried[c]], tracked := s.built[c],
         built := s.built - {c}, tried := s.tried - {c})
    case TakeAll(c) => s.(pending := s.pending[c := s.tracked], tracked := {})
    case Teardown(c, k) => s.(live := s.live - {k}, pending := s.pending[c := s.pending[c] - {k}])
  }

  predicate Among(m: map<nat, set<Instance>>, k: Instance) { exists c <- m :: k in m[c] }

  /** Deployed by a call in progress, or tracked and not being redeployed by one. */
  predicate Held(s: Shared, k: Instance) { Among(s.built, k) || (k in s.tracked && !Among(s.tried, k)) }

  /** Some call will publish it, removes it, or it is tracked. */
  predicate Owned(s: Shared, k: Instance) { k in s.tracked || Among(s.pending, k) || Among(s.built, k) }

  /** What is held runs, and what runs is owned. */
  ghost predicate Accounted(s: Shared) {
    forall k: Instance {:trigger k in s.live} :: (Held(s, k) ==> k in s.live) && (k in s.live ==> Owned(s, k))
  }

  ghost predicate WellFormed(s: Shared) {
    s.built.Keys == s.tried.Keys && s.built.Keys !! s.pending.Keys && forall c <- s.built :: s.built[c] <= s.tried[c]
  }

  /**
   * The steps that keep the account: no removal hits an instance that somebody holds, and a Distribute that
   * publishes finds nothing running of what it tried in vain, unless somebody else is to publish or remove it.
   */
  ghost predicate Clean(s: Shared, step: Step)
    requires Enabled(s, step)
  {
    match step
    case Attempt(c, k, outcome) => outcome.Removed? ==> !Among(s.built, k)
    case Teardown(c, k) => !Held(s, k)
    case Publish(c) =>
      forall k :: k in s.tracked && k in s.tried[c] && k in s.live ==> Among(s.built, k) || Among(s.pending, k)
    case _ => true
  }

  lemma StepKeepsShape(s: Shared, step: Step)
    requires WellFormed(s) && Enabled(s, step)
    ensures WellFormed(Apply(s, step))
  {
  }

  lemma AttemptExact(s: Shared, step: Step)
    requires WellFormed(s) && Accounted(s) && Enabled(s, step) && step.Attempt?
    ensures Accounted(Apply(s, step)) <==> Clean(s, step)
  {
    var s', c, k := Apply(s, step), step.c, step.k;
    forall j: Instance ensures Among(s'.built, j) <==> Among(s.built, j) || (j == k && step.outcome.Replaced?) {
      if step.outcome.Replaced? && j == k { assert k in s'.built[c]; }
      if d :| d in s.built && j in s.built[d] { assert j in s'.built[d]; }
    }
    forall j: Instance ensures Among(s'.tried, j) <==> Among(s.tried, j) || j == k {
      if j == k { assert k in s'.tried[c]; }
      if d :| d in s.tried && j in s.tried[d] { assert j in s'.tried[d]; }
    }
  }

  lemma TeardownExact(s: Shared, step: Step)
    requires Accounted(s) && Enabled(s, step) && step.Teardown?
    ensures Accounted(Apply(s, step)) <==> Clean(s, step)
  {
    var s', c, k := Apply(s, step), step.c, step.k;
    forall j: Instance | j != k ensures Among(s'.pending, j) <==> Among(s.pending, j) {
      if d :| d in s.pending && j in s.pending[d] { assert j in s'.pending[d]; }
    }
    if Held(s, k) { assert Held(s', k) && k !in s'.live; }
  }

  lemma PublishExact(s: Shared, step: Step)
    requires WellFormed(s) && Accounted(s) && Enabled(s, step) && step.Publish?
    ensures Accounted(Apply(s, step)) <==> Clean(s, step)
  {
    var s', c := Apply(s, step), step.c;
    forall j: Instance ensures Among(s.built, j) <==> Among(s'.built, j) || j in s.built[c] {
      if d :| d in s.built && j in s.built[d] { assert d == c || j in s'.built[d]; }
    }
    forall j: Instance | Among(s.pending, j) ensures Among(s'.pending, j) {
      var d :| d in s.pending && j in s.pending[d];
      assert j in s'.pending[d];
    }
    forall j <- s.tracked - s.tried[c] ensures Among(s'.pending, j) { assert j in s'.pending[c]; }
  }

  /** Each step keeps the account if and only if it is clean. */
  lemma StepExact(s: Shared, step: Step)
    requires WellFormed(s) && Accounted(s) && Enabled(s, step)
    ensures Accounted(Apply(s, step)) <==> Clean(s, step)
  {
    match step
    case Attempt(_, _, _) => AttemptExact(s, step);
    case Teardown(_, _) => TeardownExact(s, step);
    case Publish(_) => PublishExact(s, step);
    case Begin(_) => BeginKeeps(s, step);
    case TakeAll(_) => TakeAllKeeps(s, step);
  }

  lemma BeginKeeps(s: Shared, step: Step)
    requires Accounted(s) && Enabled(s, step) && step.Begin?
    ensures Accounted(Apply(s, step))
  {
    var s' := Apply(s, step);
    forall k: Instance ensures (Among(s'.built, k) <==> Among(s.built, k)) &&
      (Among(s'.tried, k) <==> Among(s.tried, k)) {
      if d :| d in s.built && k in s.built[d] { assert k in s'.built[d]; }
      if d :| d in s.tried && k in s.tried[d] { assert k in s'.tried[d]; }
    }
  }

  lemma TakeAllKeeps(s: Shared, step: Step)
    requires Accounted(s) && Enabled(s, step) && step.TakeAll?
    ensures Accounted(Apply(s, step))
  {
    var s' := Apply(s, step);
    forall k: Instance | k in s.tracked || Among(s.pending, k) ensures Among(s'.pending, k) {
      if k in s.tracked { assert k in s'.pending[step.c]; }
      else {
        var d :| d in s.pending && k in s.pending[d];
        assert k in s'.pending[d];
      }
    }
  }

  const START: Shared := Shared({}, {}, map[], map[], map[])

  ghost predicate Execution(states: seq<Shared>, steps: seq<Step>) {
    && |states| == |steps| + 1 && states[0] == START
    && forall j {:trigger steps[j]} :: 0 <= j < |steps| ==>
         Enabled(states[j], steps[j]) && states[j + 1] == Apply(states[j], steps[j])
  }

  lemma {:induction false} ShapeAlways(states: seq<Shared>, steps: seq<Step>, n: nat)
    requires Execution(states, steps) && n <= |steps|
    ensures WellFormed(states[n])
  {
    if n == 0 {
      assert states[0] == START;
    } else {
      ShapeAlways(states, steps, n - 1);
      assert Enabled(states[n - 1], steps[n - 1]);
      StepKeepsShape(states[n - 1], steps[n - 1]);
    }
  }

  lemma StartAccounted()
    ensures Accounted(START)
  {
  }

  /** In every interleaving the account is kept at every moment if and only if every step is clean. */
  lemma {:induction false} AccountedIffClean(states: seq<Shared>, steps: seq<Step>, n: nat)
    requires Execution(states, steps) && n <= |steps|
    ensures (forall j :: 0 <= j <= n ==> Accounted(states[j])) <==>
      (forall j :: 0 <= j < n ==> Enabled(states[j], steps[j]) && Clean(states[j], steps[j]))
  {
    hide Accounted, Clean, Enabled, Apply, WellFormed;
    if n == 0 {
      StartAccounted();
    } else {
      AccountedIffClean(states, steps, n - 1);
      assert Enabled(states[n - 1], steps[n - 1]);
      ShapeAlways(states, steps, n - 1);
      if Accounted(states[n - 1]) { StepExact(states[n - 1], steps[n - 1]); }
    }
  }

  /** No call is in progress. */
  predicate Quiet(s: Shared) { s.built == map[] && s.tried == map[] && forall c <- s.pending :: s.pending[c] == {} }

  /** Once the account is kept and no call is in progress, exactly what is tracked runs. */
  lemma QuietAgrees(s: Shared)
    requires Accounted(s) && Quiet(s)
    ensures s.live == s.tracked
  {
    forall k: Instance ensures k in s.live <==> k in s.tracked {
      assert Held(s, k) <==> k in s.tracked;
    }
  }

  /** An Undistribute removes what a Distribute has just redeployed in place and then publishes as running. */
  lemma RaceExample() returns (states: seq<Shared>, steps: seq<Step>)
    ensures Execution(states, steps) && Quiet(states[|steps|])
    ensures states[|steps|].tracked == {("h", "x")} && states[|steps|].live == {}
    ensures |steps| == 8 && steps[5] == Attempt(2, ("h", "x"), Replaced)
    ensures states[5].pending == map[0 := {}, 1 := {("h", "x")}]
  {
    var x: Instance := ("h", "x");
    steps := [Begin(0), Attempt(0, x, Replaced), Publish(0), TakeAll(1), Begin(2), Attempt(2, x, Replaced),
      Teardown(1, x), Publish(2)];
    var s1 := START.(built := map[0 := {}], tried := map[0 := {}]);
    var s2 := s1.(built := map[0 := {x}], tried := map[0 := {x}], live := {x});
    var s3 := START.(live := {x}, tracked := {x}, pending := map[0 := {}]);
    var s4 := s3.(tracked := {}, pending := map[0 := {}, 1 := {x}]);
    var s5 := s4.(built := map[2 := {}], tried := map[2 := {}]);
    var s6 := s5.(built := map[2 := {x}], tried := map[2 := {x}]);
    var s7 := s6.(live := {}, pending := map[0 := {}, 1 := {}]);
    var s8 := START.(tracked := {x}, pending := map[0 := {}, 1 := {}, 2 := {}]);
    FirstRound(x, s1, s2, s3);
    SecondRound(x, s3, s4, s5, s6);
    LastRound(x, s6, s7, s8);
    states := [START, s1, s2, s3, s4, s5, s6, s7, s8];
  }

  lemma FirstRound(x: Instance, s1: Shared, s2: Shared, s3: Shared)
    requires s1 == START.(built := map[0 := {}], tried := map[0 := {}])
    requires s2 == s1.(built := map[0 := {x}], tried := map[0 := {x}], live := {x})
    requires s3 == START.(live := {x}, tracked := {x}, pending := map[0 := {}])
    ensures Enabled(START, Begin(0)) && s1 == Apply(START, Begin(0))
    ensures Enabled(s1, Attempt(0, x, Replaced)) && s2 == Apply(s1, Attempt(0, x, Replaced))
    ensures Enabled(s2, Publish(0)) && s3 == Apply(s2, Publish(0))
  {
    assert s1.live + {x} == {x} && s1.tried[0] + {x} == {x} && s1.built[0] + {x} == {x};
    assert s2.built - {0} == map[] && s2.tried - {0} == map[];
    assert s2.tracked - s2.tried[0] == {};
  }

  lemma SecondRound(x: Instance, s3: Shared, s4: Shared, s5: Shared, s6: Shared)
    requires s3 == START.(live := {x}, tracked := {x}, pending := map[0 := {}])
    requires s4 == s3.(tracked := {}, pending := map[0 := {}, 1 := {x}])
    requires s5 == s4.(built := map[2 := {}], tried := map[2 := {}])
    requires s6 == s5.(built := map[2 := {x}], tried := map[2 := {x}])
    ensures Enabled(s3, TakeAll(1)) && s4 == Apply(s3, TakeAll(1))
    ensures Enabled(s4, Begin(2)) && s5 == Apply(s4, Begin(2))
    ensures Enabled(s5, Attempt(2, x, Replaced)) && s6 == Apply(s5, Attempt(2, x, Replaced))
  {
    assert s5.live + {x} == {x} && s5.tried[2] + {x} == {x} && s5.built[2] + {x} == {x};
  }

  lemma LastRound(x: Instance, s6: Shared, s7: Shared, s8: Shared)
    requires s6.live == {x} && s6.tracked == {} && s6.pending == map[0 := {}, 1 := {x}]
    requires s6.built == map[2 := {x}] && s6.tried == map[2 := {x}]
    requires s7 == s6.(live := {}, pending := map[0 := {}, 1 := {}])
    requires s8 == START.(tracked := {x}, pending := map[0 := {}, 1 := {}, 2 := {}])
    ensures Enabled(s6, Teardown(1, x)) && s7 == Apply(s6, Teardown(1, x))
    ensures Enabled(s7, Publish(2)) && s8 == Apply(s7, Publish(2))
  {
    assert s7.built - {2} == map[] && s7.tried - {2} == map[];
    assert s6.pending[1] - {x} == {} && s6.live - {x} == {};
    assert s7.tracked - s7.tried[2] == {};
  }
}
