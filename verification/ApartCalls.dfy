/**
 * Concurrent calls that keep apart: no call touches what another one in progress is working on. Over every such
 * interleaving, and so over calls that follow one another, what runs is known exactly at every moment.
 */
module ApartCalls {
  import opened Distribution
  import opened DistributionRaces

  /**
   * An attempt touches no instance that another unfinished call has tried or is still to remove, and no critical
   * section takes over an instance that another call has tried.
   */
  ghost predicate Apart(s: Shared, step: Step)
    requires Enabled(s, step)
  {
    match step
    case Attempt(c, k, _) => forall d :: d != c ==> !In(s.tried, d, k) && !In(s.pending, d, k)
    case Publish(c) => forall d, k :: d != c && k in s.tracked - s.tried[c] ==> !In(s.tried, d, k)
    case TakeAll(c) => forall d, k :: d != c && k in s.tracked ==> !In(s.tried, d, k)
    case _ => true
  }

  predicate In(m: map<nat, set<Instance>>, c: nat, k: Instance) { c in m && k in m[c] }

  ghost predicate ApartExecution(states: seq<Shared>, steps: seq<Step>) {
    && Execution(states, steps)
    && forall j :: 0 <= j < |steps| ==> Enabled(states[j], steps[j]) && Apart(states[j], steps[j])
  }

  // ---------------------------------------------------------------- what apart calls keep

  /** An instance belongs to one call at most, and what is to be removed is neither tracked nor tried. */
  ghost predicate Separate(s: Shared) {
    && (forall c, d, k :: In(s.tried, c, k) && In(s.tried, d, k) ==> c == d)
    && (forall c, k :: In(s.pending, c, k) ==> k !in s.tracked)
    && (forall c, d, k :: In(s.pending, c, k) ==> !In(s.tried, d, k))
  }

  lemma StepSeparates(s: Shared, step: Step)
    requires WellFormed(s) && Separate(s) && Enabled(s, step) && Apart(s, step)
    ensures Separate(Apply(s, step))
  {
    var s' := Apply(s, step);
    match step
    case Begin(c) =>
      assert forall d, k :: In(s'.tried, d, k) ==> In(s.tried, d, k);
    case Attempt(c, k, _) =>
      assert forall d, j :: In(s'.tried, d, j) ==> In(s.tried, d, j) || (d == c && j == k);
    case Publish(c) =>
      assert forall d, k :: In(s'.tried, d, k) ==> In(s.tried, d, k) && d != c;
      assert forall d, k :: In(s'.pending, d, k) ==> In(s.pending, d, k) || k in s.tracked - s.tried[c];
      assert forall k <- s'.tracked :: In(s.tried, c, k);
    case TakeAll(c) =>
      assert forall d, k :: In(s'.pending, d, k) ==> In(s.pending, d, k) || k in s.tracked;
    case Teardown(c, k) =>
      assert forall d, j :: In(s'.pending, d, j) ==> In(s.pending, d, j);
  }

  /** The instances a step drops from every record while they run, or finds again. */
  ghost function LostNext(s: Shared, step: Step, lost: set<Instance>): set<Instance>
    requires Enabled(s, step)
  {
    match step
    case Attempt(_, k, outcome) => if outcome.Untouched? then lost else lost - {k}
    case Publish(c) => lost + (set k | k in s.tracked && k in s.tried[c] && k in s.live && k !in s.built[c])
    case _ => lost
  }

  /** What is held runs; what runs is owned or lost, and never both. */
  ghost predicate Exact(s: Shared, lost: set<Instance>) {
    forall k: Instance {:trigger k in s.live} {:trigger k in lost} ::
      && (Held(s, k) ==> k in s.live) && (k in s.live ==> Owned(s, k) || k in lost)
      && (k in lost ==> k in s.live && !Owned(s, k))
  }

  lemma AttemptKeeps(s: Shared, step: Step, lost: set<Instance>)
    requires WellFormed(s) && Separate(s) && Exact(s, lost) && Enabled(s, step) && Apart(s, step) && step.Attempt?
    ensures Exact(Apply(s, step), LostNext(s, step, lost))
  {
    var s', c, k := Apply(s, step), step.c, step.k;
    forall j: Instance ensures Among(s'.built, j) <==> Among(s.built, j) || (j == k && step.outcome.Replaced?) {
      if step.outcome.Replaced? && j == k { assert k in s'.built[c]; }
      if d :| d in s.built && j in s.built[d] { assert j in s'.built[d]; }
    }
    forall j: Instance ensures Among(s'.tried, j) <==> Among(s.tried, j) || j == k {
      if j == k { assert k in s'.tried[c]; }
      if d :| d in s.tried && j in s.tried[d] { assert j in s'.tried[d]; }
    }
    assert !Among(s.built, k) by {
      if d :| d in s.built && k in s.built[d] { assert In(s.tried, d, k); }
    }
    assert !Among(s.pending, k) by {
      if d :| d in s.pending && k in s.pending[d] { assert In(s.pending, d, k); }
    }
  }

  lemma PublishKeeps(s: Shared, step: Step, lost: set<Instance>)
    requires WellFormed(s) && Separate(s) && Exact(s, lost) && Enabled(s, step) && Apart(s, step) && step.Publish?
    ensures Exact(Apply(s, step), LostNext(s, step, lost))
  {
    var s', c := Apply(s, step), step.c;
    forall j: Instance ensures Among(s'.built, j) <==> Among(s.built, j) && j !in s.built[c] {
      if d :| d in s.built && j in s.built[d] {
        assert In(s.tried, d, j) && (j in s.built[c] ==> In(s.tried, c, j));
        assert d == c || j in s'.built[d];
      }
      if d :| d in s'.built && j in s'.built[d] {
        assert j in s.built[d] && In(s.tried, d, j) && (j in s.built[c] ==> In(s.tried, c, j));
      }
    }
    forall j: Instance ensures Among(s'.pending, j) <==> Among(s.pending, j) || j in s.tracked - s.tried[c] {
      if d :| d in s.pending && j in s.pending[d] { assert j in s'.pending[d]; }
      if j in s.tracked - s.tried[c] { assert j in s'.pending[c]; }
    }
    forall j <- s.tried[c] ensures !Among(s.pending, j) && (Among(s.built, j) <==> j in s.built[c]) {
      assert In(s.tried, c, j);
      if d :| d in s.pending && j in s.pending[d] { assert In(s.pending, d, j); }
      if d :| d in s.built && j in s.built[d] { assert In(s.tried, d, j); }
    }
  }

  lemma TeardownKeeps(s: Shared, step: Step, lost: set<Instance>)
    requires WellFormed(s) && Separate(s) && Exact(s, lost) && Enabled(s, step) && step.Teardown?
    ensures Exact(Apply(s, step), LostNext(s, step, lost))
  {
    var s', c, k := Apply(s, step), step.c, step.k;
    forall j: Instance ensures Among(s'.pending, j) ==> Among(s.pending, j) {
      if d :| d in s'.pending && j in s'.pending[d] { assert j in s.pending[d]; }
    }
    forall j: Instance | j != k ensures Among(s.pending, j) ==> Among(s'.pending, j) {
      if d :| d in s.pending && j in s.pending[d] { assert j in s'.pending[d]; }
    }
    assert In(s.pending, c, k);
    assert !Among(s.built, k) by {
      if d :| d in s.built && k in s.built[d] { assert In(s.tried, d, k); }
    }
  }

  lemma OtherKeeps(s: Shared, step: Step, lost: set<Instance>)
    requires Exact(s, lost) && Enabled(s, step) && (step.Begin? || step.TakeAll?)
    ensures Exact(Apply(s, step), LostNext(s, step, lost))
  {
    var s', c := Apply(s, step), step.c;
    forall k: Instance
      ensures (Among(s'.built, k) <==> Among(s.built, k)) && (Among(s'.tried, k) <==> Among(s.tried, k))
    {
      if d :| d in s.built && k in s.built[d] { assert k in s'.built[d]; }
      if d :| d in s.tried && k in s.tried[d] { assert k in s'.tried[d]; }
    }
    forall k: Instance
      ensures Among(s'.pending, k) <==> Among(s.pending, k) || (step.TakeAll? && k in s.tracked)
    {
      if d :| d in s.pending && k in s.pending[d] { assert k in s'.pending[d]; }
      if step.TakeAll? && k in s.tracked { assert k in s'.pending[c]; }
    }
  }

  lemma StepKeeps(s: Shared, step: Step, lost: set<Instance>)
    requires WellFormed(s) && Separate(s) && Exact(s, lost) && Enabled(s, step) && Apart(s, step)
    ensures Exact(Apply(s, step), LostNext(s, step, lost))
  {
    hide Exact, Separate, Apart, LostNext, WellFormed, Enabled, Apply;
    match step
    case Attempt(_, _, _) => AttemptKeeps(s, step, lost);
    case Teardown(_, _) => TeardownKeeps(s, step, lost);
    case Publish(_) => PublishKeeps(s, step, lost);
    case Begin(_) => OtherKeeps(s, step, lost);
    case TakeAll(_) => OtherKeeps(s, step, lost);
  }

  ghost function Lost(states: seq<Shared>, steps: seq<Step>, n: nat): set<Instance>
    requires ApartExecution(states, steps) && n <= |steps|
  {
    if n == 0 then {} else LostNext(states[n - 1], steps[n - 1], Lost(states, steps, n - 1))
  }

  lemma {:induction false} AlwaysExact(states: seq<Shared>, steps: seq<Step>, n: nat)
    requires ApartExecution(states, steps) && n <= |steps|
    ensures WellFormed(states[n]) && Separate(states[n]) && Exact(states[n], Lost(states, steps, n))
  {
    hide WellFormed, Apply, LostNext, Apart, Enabled;
    ShapeAlways(states, steps, n);
    if n == 0 {
      assert states[0] == START;
    } else {
      AlwaysExact(states, steps, n - 1);
      var s, step := states[n - 1], steps[n - 1];
      assert Enabled(s, step) && Apart(s, step) && states[n] == Apply(s, step);
      StepSeparates(s, step);
      StepKeeps(s, step, Lost(states, steps, n - 1));
    }
  }

  // ------------------------------------------------------------------ in terms of the steps

  /** The attempt at step `i` and what its call is now: the instance stays where the attempt left it. */
  ghost predicate Since(states: seq<Shared>, steps: seq<Step>, i: nat, n: nat)
    requires i < |steps| && n < |states| && i < |states| && steps[i].Attempt?
  {
    var Attempt(c, k, outcome) := steps[i];
    && In(states[n].tried, c, k)
    && (In(states[n].built, c, k) <==> outcome.Replaced?)
    && (k in states[n].tracked <==> k in states[i].tracked)
    && (k in states[n].live <==> outcome.Replaced? || (outcome.Untouched? && k in states[i].live))
  }

  /** A call that has begun stays on record. */
  lemma {:induction false} CallsStay(states: seq<Shared>, steps: seq<Step>, i: nat, n: nat, c: nat)
    requires Execution(states, steps) && i <= n <= |steps|
    requires c in states[i].tried || c in states[i].pending
    ensures c in states[n].tried || c in states[n].pending
  {
    if i == n {
    } else {
      CallsStay(states, steps, i, n - 1, c);
      assert Enabled(states[n - 1], steps[n - 1]) && states[n] == Apply(states[n - 1], steps[n - 1]);
    }
  }

  /** While its call is in progress, no step of another call changes what an attempt found and left. */
  lemma {:induction false} SinceAttempt(states: seq<Shared>, steps: seq<Step>, i: nat, n: nat)
    requires ApartExecution(states, steps) && i < n <= |steps|
    requires steps[i].Attempt? && steps[i].c in states[n].tried
    ensures Since(states, steps, i, n)
  {
    hide Apart, Since, Apply, Enabled;
    if n == i + 1 {
      AttemptLeaves(states, steps, i);
    } else {
      AttemptBegun(states, steps, i);
      CallsStay(states, steps, i + 1, n - 1, steps[i].c);
      assert Enabled(states[n - 1], steps[n - 1]) && states[n] == Apply(states[n - 1], steps[n - 1]);
      BegunOnce(states[n - 1], steps[n - 1], steps[i].c);
      SinceAttempt(states, steps, i, n - 1);
      SinceNext(states, steps, i, n - 1);
    }
  }

  lemma BegunOnce(s: Shared, step: Step, c: nat)
    requires Enabled(s, step) && c in Apply(s, step).tried && (c in s.tried || c in s.pending)
    ensures c in s.tried
  {
  }

  lemma AttemptBegun(states: seq<Shared>, steps: seq<Step>, i: nat)
    requires Execution(states, steps) && i < |steps| && steps[i].Attempt?
    ensures steps[i].c in states[i + 1].tried
  {
    assert Enabled(states[i], steps[i]) && states[i + 1] == Apply(states[i], steps[i]);
  }

  lemma AttemptLeaves(states: seq<Shared>, steps: seq<Step>, i: nat)
    requires ApartExecution(states, steps) && i < |steps| && steps[i].Attempt?
    ensures Since(states, steps, i, i + 1)
  {
    assert Enabled(states[i], steps[i]) && states[i + 1] == Apply(states[i], steps[i]);
    ShapeAlways(states, steps, i);
  }

  lemma SinceNext(states: seq<Shared>, steps: seq<Step>, i: nat, n: nat)
    requires ApartExecution(states, steps) && i < n < |steps| && steps[i].Attempt?
    requires Since(states, steps, i, n) && steps[i].c in states[n + 1].tried
    ensures Since(states, steps, i, n + 1)
  {
    AlwaysExact(states, steps, n);
    var s, step := states[n], steps[n];
    assert Enabled(s, step) && Apart(s, step) && states[n + 1] == Apply(s, step);
    var Attempt(c, k, _) := steps[i];
    StepSpares(s, step, c, k);
  }

  /** A step keeps off an instance that another call is working on. */
  lemma StepSpares(s: Shared, step: Step, c: nat, k: Instance)
    requires WellFormed(s) && Separate(s) && Enabled(s, step) && Apart(s, step)
    requires In(s.tried, c, k) && c in Apply(s, step).tried
    ensures var s' := Apply(s, step);
      && In(s'.tried, c, k) && (In(s'.built, c, k) <==> In(s.built, c, k))
      && (k in s'.tracked <==> k in s.tracked) && (k in s'.live <==> k in s.live)
  {
    match step
    case Publish(d) =>
      assert k in s.built[d] ==> In(s.tried, d, k);
      assert k in s.tried[d] ==> In(s.tried, d, k);
    case Teardown(d, j) => assert In(s.pending, d, j);
    case _ =>
  }

  /** What a call has tried, it has tried in some step. */
  lemma {:induction false} FindAttempt(states: seq<Shared>, steps: seq<Step>, n: nat, c: nat, k: Instance)
    returns (i: nat)
    requires Execution(states, steps) && n <= |steps| && In(states[n].tried, c, k)
    ensures i < n && steps[i].Attempt? && steps[i].c == c && steps[i].k == k
  {
    assert n > 0;
    assert Enabled(states[n - 1], steps[n - 1]) && states[n] == Apply(states[n - 1], steps[n - 1]);
    if In(states[n - 1].tried, c, k) {
      i := FindAttempt(states, steps, n - 1, c, k);
    } else {
      i := n - 1;
    }
  }

  /** Step `i` leaves a tracked instance as it is, and step `j` publishes the round that tried it. */
  ghost predicate Drops(states: seq<Shared>, steps: seq<Step>, i: nat, j: nat)
    requires Execution(states, steps)
  {
    && i < j < |steps| && steps[i].Attempt? && steps[i].outcome.Untouched? && steps[j] == Publish(steps[i].c)
    && steps[i].k in states[i].tracked
  }

  predicate Touches(step: Step, k: Instance) { step.Attempt? && step.k == k && !step.outcome.Untouched? }

  /** It has been dropped before `n`, and no attempt has removed or replaced it since. */
  ghost predicate DroppedAt(states: seq<Shared>, steps: seq<Step>, n: nat, k: Instance)
    requires Execution(states, steps) && n <= |steps|
  {
    exists i, j :: 0 <= i < j < n && Drops(states, steps, i, j) && steps[i].k == k && SparedSince(steps, j, n, k)
  }

  /** No attempt between `j` and `n` has removed or replaced it. */
  ghost predicate SparedSince(steps: seq<Step>, j: nat, n: nat, k: Instance)
    requires n <= |steps|
  {
    forall m :: j < m < n ==> !Touches(steps[m], k)
  }

  /** A publication loses exactly what its call was refused for while it was tracked. */
  lemma PublishLoses(states: seq<Shared>, steps: seq<Step>, j: nat, k: Instance)
    requires ApartExecution(states, steps) && j < |steps| && steps[j].Publish?
    ensures var s, c := states[j], steps[j].c;
      (Enabled(s, steps[j]) && k in s.tracked && k in s.tried[c] && k in s.live && k !in s.built[c]) <==>
      exists i :: 0 <= i < j && Drops(states, steps, i, j) && steps[i].k == k
  {
    hide Apart, WellFormed, Apply;
    var s, c := states[j], steps[j].c;
    assert Enabled(s, steps[j]);
    if k in s.tracked && k in s.tried[c] && k in s.live && k !in s.built[c] {
      var i := FindAttempt(states, steps, j, c, k);
      SinceAttempt(states, steps, i, j);
      assert Drops(states, steps, i, j);
    }
    if i :| 0 <= i < j && Drops(states, steps, i, j) && steps[i].k == k {
      SinceAttempt(states, steps, i, j);
      TrackedRuns(states, steps, i);
    }
  }

  /** What an attempt finds tracked is running. */
  lemma TrackedRuns(states: seq<Shared>, steps: seq<Step>, i: nat)
    requires ApartExecution(states, steps) && i < |steps| && steps[i].Attempt? && steps[i].k in states[i].tracked
    ensures steps[i].k in states[i].live
  {
    AlwaysExact(states, steps, i);
    var s, k := states[i], steps[i].k;
    assert Enabled(s, steps[i]) && Apart(s, steps[i]);
    assert !Among(s.tried, k) by {
      if d :| d in s.tried && k in s.tried[d] { assert In(s.tried, d, k); }
    }
    assert Held(s, k);
  }

  lemma {:induction false} LostIff(states: seq<Shared>, steps: seq<Step>, n: nat, k: Instance)
    requires ApartExecution(states, steps) && n <= |steps|
    ensures k in Lost(states, steps, n) <==> DroppedAt(states, steps, n, k)
  {
    hide Apart, Apply, Enabled, DroppedAt;
    if n == 0 {
      NoneDropped(states, steps, k);
    } else {
      LostIff(states, steps, n - 1, k);
      assert Enabled(states[n - 1], steps[n - 1]);
      if steps[n - 1].Publish? { PublishLoses(states, steps, n - 1, k); }
      DroppedNext(states, steps, n, k);
    }
  }

  lemma NoneDropped(states: seq<Shared>, steps: seq<Step>, k: Instance)
    requires Execution(states, steps)
    ensures !DroppedAt(states, steps, 0, k)
  {
  }

  /** Dropped earlier and not touched now, or dropped now. */
  lemma DroppedNext(states: seq<Shared>, steps: seq<Step>, n: nat, k: Instance)
    requires Execution(states, steps) && 0 < n <= |steps|
    ensures DroppedAt(states, steps, n, k) <==>
      || (DroppedAt(states, steps, n - 1, k) && !Touches(steps[n - 1], k))
      || exists i :: 0 <= i < n - 1 && Drops(states, steps, i, n - 1) && steps[i].k == k
  {
    hide Touches, Apply, Enabled;
    if i, j :| 0 <= i < j < n && Drops(states, steps, i, j) && steps[i].k == k && SparedSince(steps, j, n, k) {
      if j < n - 1 {
        assert SparedSince(steps, j, n - 1, k);
        assert DroppedAt(states, steps, n - 1, k);
      }
    }
  }

  /**
   * Over every interleaving of calls that keep apart, at every moment: what runs is what some record knows and
   * what has been dropped, never both; and what is held runs.
   */
  lemma ApartExact(states: seq<Shared>, steps: seq<Step>, n: nat, k: Instance)
    requires ApartExecution(states, steps) && n <= |steps|
    ensures Held(states[n], k) ==> k in states[n].live
    ensures k in states[n].live ==> Owned(states[n], k) || DroppedAt(states, steps, n, k)
    ensures DroppedAt(states, steps, n, k) ==> k in states[n].live && !Owned(states[n], k)
  {
    hide DroppedAt, Lost, Apply, Apart, Enabled;
    AlwaysExact(states, steps, n);
    LostIff(states, steps, n, k);
  }

  /** Once the calls are over, exactly what is tracked runs, and what has been dropped. */
  lemma QuietExact(states: seq<Shared>, steps: seq<Step>, n: nat)
    requires ApartExecution(states, steps) && n <= |steps| && Quiet(states[n])
    ensures forall k :: k in states[n].live <==> k in states[n].tracked || DroppedAt(states, steps, n, k)
    ensures states[n].live == states[n].tracked <==> forall k :: !DroppedAt(states, steps, n, k)
  {
    hide DroppedAt, Apply, Apart, Enabled;
    var s := states[n];
    forall k: Instance
      ensures k in s.live <==> k in s.tracked || DroppedAt(states, steps, n, k)
      ensures DroppedAt(states, steps, n, k) ==> k !in s.tracked
    {
      ApartExact(states, steps, n, k);
      assert Held(s, k) <==> k in s.tracked;
      assert Owned(s, k) <==> k in s.tracked;
    }
  }

  /**
   * Calls that keep apart keep the account throughout if and only if no round publishes over a tracked instance
   * that its attempt left untouched.
   */
  lemma ApartAccountedIff(states: seq<Shared>, steps: seq<Step>, n: nat)
    requires ApartExecution(states, steps) && n <= |steps|
    ensures (forall j :: 0 <= j <= n ==> Accounted(states[j])) <==>
      (forall i, j :: 0 <= i < j < n ==> !Drops(states, steps, i, j))
  {
    hide Held, Owned, Apply, Apart, Enabled;
    forall j, k | 0 <= j <= n
      ensures Held(states[j], k) ==> k in states[j].live
      ensures k in states[j].live ==> Owned(states[j], k) || DroppedAt(states, steps, j, k)
      ensures DroppedAt(states, steps, j, k) ==> k in states[j].live && !Owned(states[j], k)
    {
      ApartExact(states, steps, j, k);
    }
    if i, j :| 0 <= i < j < n && Drops(states, steps, i, j) {
      assert DroppedAt(states, steps, j + 1, steps[i].k);
      assert !Accounted(states[j + 1]);
    }
  }

  /** The race between a Distribute and an Undistribute has an attempt at an instance that the other is to remove. */
  lemma RaceIsNotApart() returns (states: seq<Shared>, steps: seq<Step>)
    ensures Execution(states, steps) && Quiet(states[|steps|]) && states[|steps|].live != states[|steps|].tracked
    ensures |steps| > 5 && Enabled(states[5], steps[5]) && !Apart(states[5], steps[5])
  {
    states, steps := RaceExample();
    assert Enabled(states[5], steps[5]);
    assert In(states[5].pending, 1, ("h", "x"));
  }

  // ------------------------------------------------------------------ calls one after another

  /** Every call begins when no other is in progress. */
  ghost predicate OneByOne(states: seq<Shared>, steps: seq<Step>)
    requires Execution(states, steps)
  {
    forall j :: 0 <= j < |steps| && (steps[j].Begin? || steps[j].TakeAll?) ==> Quiet(states[j])
  }

  predicate Busy(s: Shared, c: nat) { c in s.tried || (c in s.pending && s.pending[c] != {}) }

  ghost predicate AtMostOneBusy(s: Shared) { forall c, d :: Busy(s, c) && Busy(s, d) ==> c == d }

  lemma {:induction false} StaysOne(states: seq<Shared>, steps: seq<Step>, n: nat)
    requires Execution(states, steps) && OneByOne(states, steps) && n <= |steps|
    ensures AtMostOneBusy(states[n]) && WellFormed(states[n])
  {
    hide Apply, Enabled, WellFormed;
    ShapeAlways(states, steps, n);
    if n == 0 {
      assert states[0] == START;
    } else {
      StaysOne(states, steps, n - 1);
      var s, step := states[n - 1], steps[n - 1];
      assert Enabled(s, step) && states[n] == Apply(s, step);
      StepOne(s, step);
    }
  }

  lemma StepOne(s: Shared, step: Step)
    requires Enabled(s, step) && AtMostOneBusy(s) && WellFormed(s) && (step.Begin? || step.TakeAll? ==> Quiet(s))
    ensures AtMostOneBusy(Apply(s, step))
  {
    var s' := Apply(s, step);
    assert forall c :: c != step.c && Busy(s', c) ==> Busy(s, c);
    assert step.Attempt? || step.Publish? || step.Teardown? ==> Busy(s, step.c);
  }

  /** Calls that do not overlap in time keep apart, so everything above holds for them. */
  lemma OneByOneIsApart(states: seq<Shared>, steps: seq<Step>)
    requires Execution(states, steps) && OneByOne(states, steps)
    ensures ApartExecution(states, steps)
  {
    forall j | 0 <= j < |steps| ensures Enabled(states[j], steps[j]) && Apart(states[j], steps[j]) {
      StaysOne(states, steps, j);
      var s, step := states[j], steps[j];
      assert Enabled(s, step);
      AloneIsApart(s, step);
    }
  }

  lemma AloneIsApart(s: Shared, step: Step)
    requires Enabled(s, step) && AtMostOneBusy(s) && WellFormed(s) && (step.Begin? || step.TakeAll? ==> Quiet(s))
    ensures Apart(s, step)
  {
    forall d, k | In(s.tried, d, k) || In(s.pending, d, k) ensures Busy(s, d) {}
    if step.Attempt? || step.Publish? { assert Busy(s, step.c); }
  }
}
