/**
 * The list of proxy connections under its lock. A request that sorts the list reads it in one critical
 * section and stores the sorted copy in another one; in between other requests do the same, and newly
 * found proxies are appended.
 */
module ConnectionListSpec {
  /** `added` are all connections ever appended; copies[t] is what request t has read and not stored yet. */
  datatype State = State(connections: seq<nat>, added: seq<nat>, copies: map<nat, seq<nat>>)

  datatype Step = Add(connection: nat) | Read(request: nat) | Store(request: nat, sorted: seq<nat>)

  const INITIAL := State([], [], map[])

  /** Storing needs a copy to sort; the result of the sort has the same elements. */
  predicate MayStore(s: State, t: nat, sorted: seq<nat>) {
    t in s.copies && multiset(sorted) == multiset(s.copies[t])
  }

  function Next(s: State, step: Step): State {
    match step
    case Add(c) => s.(connections := s.connections + [c], added := s.added + [c])
    case Read(t) => s.(copies := s.copies[t := s.connections])
    case Store(t, sorted) =>
      if MayStore(s, t, sorted) then s.(connections := sorted, copies := s.copies - {t}) else s
  }

  function Run(steps: seq<Step>): State {
    if steps == [] then INITIAL else Next(Run(steps[..|steps| - 1]), steps[|steps| - 1])
  }

  /** Every connection is in the list, as often as it was added. */
  predicate Complete(s: State) {
    multiset(s.connections) == multiset(s.added)
  }

  predicate IsOf(step: Step, t: nat) {
    (step.Read? || step.Store?) && step.request == t
  }

  predicate NoAdd(steps: seq<Step>, n: nat) {
    forall i :: n <= i < |steps| ==> !steps[i].Add?
  }

  lemma {:induction false} CopyIsKept(steps: seq<Step>, n: nat, t: nat)
    requires n < |steps| && steps[n] == Read(t) && forall i :: n < i < |steps| ==> !IsOf(steps[i], t)
    ensures t in Run(steps).copies && Run(steps).copies[t] == Run(steps[..n]).connections
  {
    var last := |steps| - 1;
    if n < last {
      assert steps[..last][..n] == steps[..n];
      CopyIsKept(steps[..last], n, t);
    }
  }

  lemma {:induction false} AddedSince(steps: seq<Step>, n: nat)
    requires n <= |steps|
    ensures Run(steps[..n]).added <= Run(steps).added
    ensures Run(steps).added == Run(steps[..n]).added <==> NoAdd(steps, n)
    decreases |steps|
  {
    var last := |steps| - 1;
    if n == |steps| {
      assert steps[..n] == steps;
    } else {
      assert steps[..last][..n] == steps[..n];
      AddedSince(steps[..last], n);
      assert forall i :: n <= i < last ==> steps[..last][i] == steps[i];
      assert NoAdd(steps, n) <==> NoAdd(steps[..last], n) && !steps[last].Add?;
    }
  }

  predicate AllAdded(s: State, list: seq<nat>) {
    multiset(list) <= multiset(s.added)
  }

  ghost predicate OnlyAdded(s: State) {
    AllAdded(s, s.connections) && forall t :: t in s.copies ==> AllAdded(s, s.copies[t])
  }

  lemma OnlyAddedStep(s: State, step: Step)
    requires OnlyAdded(s)
    ensures OnlyAdded(Next(s, step))
  {
    var s' := Next(s, step);
    forall t | t in s'.copies ensures AllAdded(s', s'.copies[t]) {
      assert t in s.copies ==> AllAdded(s, s.copies[t]);
    }
  }

  lemma {:induction false} NothingInvented(steps: seq<Step>)
    ensures OnlyAdded(Run(steps))
  {
    if steps != [] {
      NothingInvented(steps[..|steps| - 1]);
      OnlyAddedStep(Run(steps[..|steps| - 1]), steps[|steps| - 1]);
    }
  }

  /**
   * A request stores exactly what it has read. The list is complete after that if and only if it was
   * complete when the request read it and no connection was added since.
   */
  lemma StoreIsCompleteIff(steps: seq<Step>, n: nat, t: nat, sorted: seq<nat>)
    requires n < |steps| && steps[n] == Read(t) && forall i :: n < i < |steps| ==> !IsOf(steps[i], t)
    requires MayStore(Run(steps), t, sorted)
    ensures multiset(Next(Run(steps), Store(t, sorted)).connections) == multiset(Run(steps[..n]).connections)
    ensures Complete(Next(Run(steps), Store(t, sorted))) <==> Complete(Run(steps[..n])) && NoAdd(steps, n)
  {
    CopyIsKept(steps, n, t);
    AddedSince(steps, n);
    NothingInvented(steps[..n]);
    SameSizeIsSame(Run(steps[..n]), Run(steps).added);
  }

  /** A list with only added connections has all of some later ones only if there are no later ones. */
  lemma SameSizeIsSame(s: State, later: seq<nat>)
    requires AllAdded(s, s.connections) && s.added <= later
    ensures multiset(s.connections) == multiset(later) <==> Complete(s) && later == s.added
  {
    var more := later[|s.added|..];
    assert later == s.added + more;
    if more != [] {
      assert more[0] in multiset(more);
      assert multiset(later)[more[0]] > multiset(s.added)[more[0]] >= multiset(s.connections)[more[0]];
    }
  }

  /** Sorting drops a connection that is added between the two critical sections. */
  lemma SortDropsConnection(a: nat, b: nat, t: nat)
    ensures Run([Add(a), Read(t), Add(b), Store(t, [a])]).connections == [a]
    ensures Run([Add(a), Read(t), Add(b), Store(t, [a])]).added == [a, b]
  {
    var s1, s2, s3, s4 := Add(a), Read(t), Add(b), Store(t, [a]);
    assert [s1, s2, s3, s4][..3] == [s1, s2, s3] && [s1, s2, s3][..2] == [s1, s2];
    assert [s1, s2][..1] == [s1] && [s1][..0] == [];
    assert Run([s1]) == State([a], [a], map[]);
    assert Run([s1, s2]) == State([a], [a], map[t := [a]]);
    assert Run([s1, s2, s3]) == State([a, b], [a, b], map[t := [a]]);
  }

  /** If every request stores what it has read before anything is added, the list is always complete. */
  lemma {:induction false} UndisturbedIsComplete(steps: seq<Step>)
    requires forall i :: 0 <= i < |steps| && steps[i].Add? ==> Run(steps[..i]).copies == map[]
    ensures Complete(Run(steps))
    ensures forall t :: t in Run(steps).copies ==> multiset(Run(steps).copies[t]) == multiset(Run(steps).added)
  {
    if steps != [] {
      var before := steps[..|steps| - 1];
      forall i | 0 <= i < |before| && before[i].Add? ensures Run(before[..i]).copies == map[] {
        assert before[..i] == steps[..i];
      }
      UndisturbedIsComplete(before);
    }
  }
}
