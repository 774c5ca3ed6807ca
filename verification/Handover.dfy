/**
 * Concurrent Distribute, Undistribute and CheckAndFailover calls on one distributor: who ends up
 * responsible for which placement list. A list is a backing array; the distributor points at one.
 */
module Handover {
  import opened Prelude
  import opened Distribution

  /** Who took a list over, and the entries as that call sees them. */
  datatype Taker = Taker(call: nat, entries: seq<Container>, byDistribute: bool)

  datatype Shared = Shared(
    arrays: map<nat, seq<Container>>,      // backing arrays, by identity
    current: Option<nat>,                  // d.containers
    published: map<nat, seq<Container>>,   // what each array held when it was published
    takers: map<nat, Taker>,
    takeovers: seq<nat>)                   // the arrays taken over, in order

  datatype Step =
    | Publish(call: nat, array_: nat, entries: seq<Container>)   // Distribute's critical section
    | TakeAll(call: nat)                                         // Undistribute's critical section
    | MarkMigrating(names: set<string>)                          // CheckAndFailover's second critical section

  ghost predicate Enabled(s: Shared, step: Step) {
    step.Publish? ==> step.array_ !in s.arrays
  }

  /** The list that is no longer current goes to the call that replaced it. */
  ghost function TakenOver(s: Shared, call: nat, byDistribute: bool): Shared {
    if s.current.None? || s.current.value !in s.arrays then s
    else
      var a := s.current.value;
      s.(takers := s.takers[a := Taker(call, s.arrays[a], byDistribute)], takeovers := s.takeovers + [a])
  }

  ghost function AllStopped(cs: seq<Container>): seq<Container> {
    seq(|cs|, i requires 0 <= i < |cs| => cs[i].(state := Stopped))
  }

  ghost function Apply(s: Shared, step: Step): Shared
    requires Enabled(s, step)
  {
    match step
    case Publish(call, a, entries) =>
      var t := TakenOver(s, call, true);
      t.(arrays := t.arrays[a := entries], current := Some(a), published := t.published[a := entries])
    case TakeAll(call) =>
      var t := TakenOver(s, call, false);
      t.(arrays := if s.current.Some? && s.current.value in s.arrays
                   then t.arrays[s.current.value := AllStopped(s.arrays[s.current.value])] else t.arrays,
         current := None)
    case MarkMigrating(names) =>
      if s.current.None? || s.current.value !in s.arrays then s
      else s.(arrays := s.arrays[s.current.value := Flipped(s.arrays[s.current.value], names)])
  }

  /** The entries at whose hosts a stop or remove must still be issued. */
  ghost function Obligations(cs: seq<Container>): set<Instance> { Tracked(cs) }

  ghost predicate Inv(s: Shared) {
    && (s.current.Some? ==> s.current.value in s.published && s.current.value !in s.takers)
    && s.published.Keys == s.arrays.Keys
    && (forall a <- s.published :: a in s.takers || s.current == Some(a))
    && (forall a <- s.takers :: a in s.published)
    && (forall a :: a in s.takers <==> a in s.takeovers)
    && (forall i, j :: 0 <= i < j < |s.takeovers| ==> s.takeovers[i] != s.takeovers[j])
    && (forall a <- s.takers :: Obligations(s.takers[a].entries) == Obligations(s.published[a]))
    && (forall a <- s.takers :: s.takers[a].byDistribute ==> s.arrays[a] == s.takers[a].entries)
    && (s.current.Some? ==> Obligations(s.arrays[s.current.value]) == Obligations(s.published[s.current.value]))
  }

  lemma TakeoverOnce(s: Shared, a: nat)
    requires Inv(s) && s.current == Some(a)
    ensures var l := s.takeovers + [a];
      && (forall i, j :: 0 <= i < j < |l| ==> l[i] != l[j])
      && (forall b :: b in l <==> b in s.takers || b == a)
  {
  }

  lemma InvPublish(s: Shared, step: Step)
    requires Inv(s) && Enabled(s, step) && step.Publish?
    ensures Inv(Apply(s, step))
  {
    hide Obligations;
    if s.current.Some? { TakeoverOnce(s, s.current.value); }
  }

  lemma InvTakeAll(s: Shared, step: Step)
    requires Inv(s) && Enabled(s, step) && step.TakeAll?
    ensures Inv(Apply(s, step))
  {
    hide Obligations;
    if s.current.Some? { TakeoverOnce(s, s.current.value); }
  }

  lemma InvStep(s: Shared, step: Step)
    requires Inv(s) && Enabled(s, step)
    ensures Inv(Apply(s, step))
  {
    match step
    case Publish(_, _, _) => InvPublish(s, step);
    case TakeAll(_) => InvTakeAll(s, step);
    case MarkMigrating(names) =>
      if s.current.Some? { FlipKeepsTeardown(s.arrays[s.current.value], names); }
  }

  ghost predicate Execution(states: seq<Shared>, steps: seq<Step>) {
    && |states| == |steps| + 1 && states[0] == Shared(map[], None, map[], map[], [])
    && forall k {:trigger steps[k]} :: 0 <= k < |steps| ==>
         Enabled(states[k], steps[k]) && states[k + 1] == Apply(states[k], steps[k])
  }

  lemma {:induction false} InvAlways(states: seq<Shared>, steps: seq<Step>, k: nat)
    requires Execution(states, steps) && k < |states|
    ensures Inv(states[k])
  {
    if k == 0 {
    } else {
      InvAlways(states, steps, k - 1);
      InvStep(states[k - 1], steps[k - 1]);
    }
  }

  /**
   * In every interleaving, a published list is either the current one or was taken over exactly
   * once, and whoever holds it sees precisely the teardown obligations it was published with.
   */
  lemma EachListHasOneOwner(states: seq<Shared>, steps: seq<Step>, k: nat, a: nat)
    requires Execution(states, steps) && k < |states| && a in states[k].published
    ensures var s := states[k];
      && (a in s.takers <==> s.current != Some(a))
      && (a in s.takers <==> exists i :: 0 <= i < |s.takeovers| && s.takeovers[i] == a)
      && (forall i, j :: 0 <= i < j < |s.takeovers| ==> !(s.takeovers[i] == a == s.takeovers[j]))
      && (a in s.takers ==> Obligations(s.takers[a].entries) == Obligations(s.published[a]))
      && (s.current == Some(a) ==> a in s.arrays && Obligations(s.arrays[a]) == Obligations(s.published[a]))
  {
    InvAlways(states, steps, k);
  }

  lemma TakerFixed(s: Shared, step: Step, a: nat)
    requires Inv(s) && Enabled(s, step) && a in s.takers
    ensures var s' := Apply(s, step);
      && a in s'.takers && s'.takers[a] == s.takers[a]
      && (s.takers[a].byDistribute ==> a in s'.arrays && s'.arrays[a] == s.arrays[a])
  {
  }

  /** Once taken over by a Distribute, a list never changes again: reading it without the lock is safe. */
  lemma {:induction false} TakenListIsStable(states: seq<Shared>, steps: seq<Step>, i: nat, j: nat, a: nat)
    requires Execution(states, steps) && i <= j < |states|
    requires a in states[i].takers && states[i].takers[a].byDistribute
    ensures a in states[j].takers && states[j].takers[a] == states[i].takers[a]
    ensures a in states[j].arrays && states[j].arrays[a] == states[i].takers[a].entries
  {
    InvAlways(states, steps, j);
    if i == j {
    } else {
      TakenListIsStable(states, steps, i, j - 1, a);
      InvAlways(states, steps, j - 1);
      TakerFixed(states[j - 1], steps[j - 1], a);
    }
  }

  lemma {:induction false} TakerStays(states: seq<Shared>, steps: seq<Step>, i: nat, j: nat, a: nat)
    requires Execution(states, steps) && i <= j < |states| && a in states[i].takers
    ensures a in states[j].takers && states[j].takers[a] == states[i].takers[a]
  {
    if i == j {
    } else {
      TakerStays(states, steps, i, j - 1, a);
      InvAlways(states, steps, j - 1);
      assert Enabled(states[j - 1], steps[j - 1]);
      TakerFixed(states[j - 1], steps[j - 1], a);
    }
  }

  /**
   * The call that replaces a list, or clears it, has it for good, with the entries it held at that moment. The list
   * itself stays as it was after a Distribute; after an Undistribute each of its entries reads as stopped, and is
   * otherwise unchanged, for whoever still looks at it.
   */
  lemma TakenByTheNextCall(states: seq<Shared>, steps: seq<Step>, k: nat, j: nat, a: nat)
    requires Execution(states, steps) && k < j < |states| && states[k].current == Some(a)
    requires steps[k].Publish? || steps[k].TakeAll?
    ensures a in states[k].arrays && a in states[j].takers && a in states[k + 1].arrays
    ensures states[j].takers[a] == Taker(steps[k].call, states[k].arrays[a], steps[k].Publish?)
    ensures steps[k].Publish? ==>
      && states[k + 1].arrays[a] == states[k].arrays[a]
      && states[k + 1].current == Some(steps[k].array_) && steps[k].array_ in states[k + 1].arrays
      && states[k + 1].arrays[steps[k].array_] == steps[k].entries
    ensures steps[k].TakeAll? ==>
      && states[k + 1].current == None && |states[k + 1].arrays[a]| == |states[k].arrays[a]|
      && forall i :: 0 <= i < |states[k].arrays[a]| ==>
           states[k + 1].arrays[a][i] == states[k].arrays[a][i].(state := Stopped)
  {
    InvAlways(states, steps, k);
    assert Enabled(states[k], steps[k]) && states[k + 1] == Apply(states[k], steps[k]);
    TakerStays(states, steps, k + 1, j, a);
  }

  /** Marking changes only the current list, entry by entry: the running containers of those names migrate. */
  lemma MarkReads(s: Shared, names: set<string>, a: nat)
    requires Inv(s) && a in s.arrays
    ensures var s' := Apply(s, MarkMigrating(names));
      && s'.current == s.current && s'.takers == s.takers && s'.arrays.Keys == s.arrays.Keys
      && (s.current != Some(a) ==> s'.arrays[a] == s.arrays[a])
      && (s.current == Some(a) ==>
            |s'.arrays[a]| == |s.arrays[a]| && forall i :: 0 <= i < |s.arrays[a]| ==>
              s'.arrays[a][i] == if s.arrays[a][i].state == Running && s.arrays[a][i].req.name in names
                                 then s.arrays[a][i].(state := Migrating) else s.arrays[a][i])
  {
  }
}
