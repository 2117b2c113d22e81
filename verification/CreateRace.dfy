/**
 * A create command of the proxy stores the new object in its session's table and then, in a second
 * critical section, in the registry. Any other steps may come in between. They can take the object out
 * of the table before it is registered, and then nothing will ever take it out of the registry.
 */
module CreateRaceSpec {
  import opened P = ProxyRegistrySpec

  /** The command that is under way: session, id and object. */
  datatype Command = Command(session: nat, id: nat, o: Obj)

  type Tables = map<(nat, Kind), Table>

  function Key(c: Command): (nat, Kind) {
    (c.session, c.o.kind)
  }

  /** The session's table with the object. */
  function PutHalf(tables: Tables, c: Command): Tables
    requires Key(c) in tables
  {
    tables[Key(c) := Store(tables[Key(c)], c.id, c.o)]
  }

  function FirstHalf(s: State, c: Command): State
    requires Key(c) in s.tables
  {
    s.(tables := PutHalf(s.tables, c))
  }

  function SecondHalf(s: State, c: Command): State {
    s.(clients := s.clients[c.id := c.o], clientIds := s.clientIds[c.o.id := c.id],
       gauges := AddGauge(s.gauges, c.o, 1))
  }

  function RunFrom(s: State, steps: seq<Step>): State {
    if steps == [] then s else Next(RunFrom(s, steps[..|steps| - 1]), steps[|steps| - 1])
  }

  // ---- Where the object is between the two halves ----

  datatype Half = InTable | InClearing | Lost

  /** The close callback or a clear takes the object out of its table, a background delete out of the clear. */
  function NextHalf(half: Half, c: Command, step: Step): Half {
    if half.InTable? && step == StepClosed(c.session, c.o) then Lost
    else if half.InTable? && step == StepClear(c.session, c.o.kind) then InClearing
    else if half.InClearing? && step == StepClearOne(c.id, c.o) then Lost
    else half
  }

  function HalfAfter(c: Command, steps: seq<Step>): Half {
    if steps == [] then InTable else NextHalf(HalfAfter(c, steps[..|steps| - 1]), c, steps[|steps| - 1])
  }

  /** A state of the registry without the object, and where the object is beside it. */
  function With(s: State, c: Command, half: Half): State
    requires Key(c) in s.tables
  {
    match half
    case InTable => FirstHalf(s, c)
    case InClearing => s.(clearing := s.clearing + {(c.id, c.o)})
    case Lost => s
  }

  /** Ids are not used twice. */
  predicate Avoids(step: Step, c: Command) {
    step.StepCreate? ==> step.id != c.id && step.o.id != c.o.id
  }

  ghost predicate Unknowing(t: Table, c: Command) {
    && (forall x :: x in t.idOf ==> x.id != c.o.id && t.idOf[x] != c.id)
    && (forall i :: i in t.byId ==> i != c.id && t.byId[i].id != c.o.id)
  }

  function Entries(t: Table): set<(nat, Obj)> {
    set i | i in t.byId :: (i, t.byId[i])
  }

  ghost predicate AllUnknowing(ts: Tables, c: Command) {
    forall key :: key in ts ==> Unknowing(ts[key], c)
  }

  /** No session and no clear that is under way knows the object. */
  ghost predicate NotHeld(s: State, c: Command) {
    && AllUnknowing(s.tables, c)
    && (forall i, o :: (i, o) in s.clearing ==> i != c.id && o.id != c.o.id)
  }

  lemma StoreUnknowing(t: Table, i: nat, o: Obj, c: Command)
    requires Unknowing(t, c) && i != c.id && o.id != c.o.id
    ensures Unknowing(Store(t, i, o), c)
  {
  }

  lemma DeleteUnknowing(t: Table, o: Obj, c: Command)
    requires Unknowing(t, c)
    ensures Unknowing(Delete(t, o), c)
  {
  }

  lemma UpdateUnknowing(ts: Tables, c: Command, key: (nat, Kind), t: Table)
    requires AllUnknowing(ts, c) && Unknowing(t, c)
    ensures AllUnknowing(ts[key := t], c)
  {
  }

  lemma EntriesApart(t: Table, c: Command)
    requires Unknowing(t, c)
    ensures forall i, o :: (i, o) in Entries(t) ==> i != c.id && o.id != c.o.id
  {
  }

  lemma ClearNotHeld(s: State, c: Command, n: nat, kind: Kind)
    requires NotHeld(s, c) && (n, kind) in s.tables
    ensures NotHeld(Clear(s, n, kind), c)
  {
    UpdateUnknowing(s.tables, c, (n, kind), EMPTY);
    EntriesApart(s.tables[(n, kind)], c);
    assert Clear(s, n, kind).clearing == s.clearing + Entries(s.tables[(n, kind)]);
  }

  lemma RemoveNotHeld(s: State, c: Command, n: nat, i: nat, o: Obj)
    requires NotHeld(s, c) && (n, o.kind) in s.tables
    ensures NotHeld(RemoveFromSession(s, n, i, o), c)
  {
    var t := s.tables[(n, o.kind)];
    DeleteUnknowing(t, o, c);
    UpdateUnknowing(s.tables, c, (n, o.kind), Delete(t, o));
  }

  lemma CreateNotHeld(s: State, c: Command, n: nat, i: nat, o: Obj)
    requires NotHeld(s, c) && (n, o.kind) in s.tables && i != c.id && o.id != c.o.id
    ensures NotHeld(Create(s, n, i, o), c)
  {
    var t := s.tables[(n, o.kind)];
    StoreUnknowing(t, i, o, c);
    UpdateUnknowing(s.tables, c, (n, o.kind), Store(t, i, o));
  }

  lemma NotHeldStep(s: State, c: Command, step: Step)
    requires NotHeld(s, c) && Avoids(step, c)
    ensures NotHeld(Next(s, step), c)
  {
    match step
    case StepNewSession(n) =>
      UpdateUnknowing(s.tables, c, (n, Publisher), EMPTY);
      UpdateUnknowing(s.tables[(n, Publisher) := EMPTY], c, (n, Subscriber), EMPTY);
    case StepCreate(n, i, o) => if (n, o.kind) in s.tables { CreateNotHeld(s, c, n, i, o); }
    case StepDelete(n, i, kind) => if MayDelete(s, n, i, kind) { RemoveNotHeld(s, c, n, i, s.clients[i]); }
    case StepClosed(n, o) =>
      if (n, o.kind) in s.tables && o in s.tables[(n, o.kind)].idOf {
        RemoveNotHeld(s, c, n, s.tables[(n, o.kind)].idOf[o], o);
      }
    case StepClear(n, kind) => if (n, kind) in s.tables { ClearNotHeld(s, c, n, kind); }
    case StepClearOne(_, _) =>
    case StepShutdown =>
  }

  /** The registry and the sessions know nothing of the object. */
  ghost predicate Apart(s: State, c: Command) {
    NotHeld(s, c) && Unregistered(s, c) && Key(c) in s.tables
  }

  ghost predicate Unregistered(s: State, c: Command) {
    && Fresh(s, c.id, c.o) && c.id !in s.owner
    && (forall i :: i in s.clients ==> s.clients[i].id != c.o.id)
  }

  lemma FreshIsApart(s: State, c: Command)
    requires Inv(s) && Fresh(s, c.id, c.o) && Key(c) in s.tables
    ensures Apart(s, c)
  {
    forall key | key in s.tables ensures Unknowing(s.tables[key], c) {
      FreshIsUnknown(s, c, key);
    }
  }

  lemma FreshIsUnknown(s: State, c: Command, key: (nat, Kind))
    requires IdsInverse(s.clients, s.clientIds) && Fresh(s, c.id, c.o) && key in s.tables && TablesOk(s)
    ensures Unknowing(s.tables[key], c)
  {
    assert TableOk(s.clients, s.owner, key.0, key.1, s.tables[key]);
  }

  lemma UnregisteredStep(s: State, c: Command, step: Step)
    requires Unregistered(s, c) && Avoids(step, c)
    ensures Unregistered(Next(s, step), c)
  {
  }

  lemma ApartStays(s: State, c: Command, step: Step)
    requires Apart(s, c) && Avoids(step, c)
    ensures Apart(Next(s, step), c)
  {
    NotHeldStep(s, c, step);
    UnregisteredStep(s, c, step);
  }

  // ---- One step in between ----

  lemma StoreCommutes(t: Table, i: nat, o: Obj, c: Command)
    requires c.id != i && c.o != o
    ensures Store(Store(t, c.id, c.o), i, o) == Store(Store(t, i, o), c.id, c.o)
  {
  }

  lemma CreateTables(ts: Tables, c: Command, key: (nat, Kind), i: nat, o: Obj)
    requires Key(c) in ts && key in ts && c.id != i && c.o != o
    ensures PutHalf(ts, c)[key := Store(PutHalf(ts, c)[key], i, o)] == PutHalf(ts[key := Store(ts[key], i, o)], c)
  {
    if key == Key(c) {
      StoreCommutes(ts[key], i, o, c);
    }
  }

  lemma DeleteTables(ts: Tables, c: Command, key: (nat, Kind), o: Obj)
    requires Key(c) in ts && key in ts && c.o != o && Unknowing(ts[key], c)
    ensures PutHalf(ts, c)[key := Delete(PutHalf(ts, c)[key], o)] == PutHalf(ts[key := Delete(ts[key], o)], c)
  {
    var t := ts[key];
    assert Delete(Store(t, c.id, c.o), o) == Store(Delete(t, o), c.id, c.o);
  }

  lemma DeleteUndoes(ts: Tables, c: Command)
    requires Key(c) in ts && Unknowing(ts[Key(c)], c)
    ensures PutHalf(ts, c)[Key(c) := Delete(PutHalf(ts, c)[Key(c)], c.o)] == ts
  {
    assert Delete(Store(ts[Key(c)], c.id, c.o), c.o) == ts[Key(c)];
  }

  lemma CreateBeside(s: State, c: Command, n: nat, i: nat, o: Obj)
    requires Apart(s, c) && Avoids(StepCreate(n, i, o), c)
    ensures Next(FirstHalf(s, c), StepCreate(n, i, o)) == FirstHalf(Next(s, StepCreate(n, i, o)), c)
  {
    if (n, o.kind) in s.tables { CreateTables(s.tables, c, (n, o.kind), i, o); }
  }

  lemma DeleteBeside(s: State, c: Command, n: nat, i: nat, kind: Kind)
    requires Apart(s, c)
    ensures Next(FirstHalf(s, c), StepDelete(n, i, kind)) == FirstHalf(Next(s, StepDelete(n, i, kind)), c)
  {
    assert MayDelete(FirstHalf(s, c), n, i, kind) <==> MayDelete(s, n, i, kind);
    if MayDelete(s, n, i, kind) { DeleteTables(s.tables, c, (n, kind), s.clients[i]); }
  }

  lemma RemoveBeside(s: State, c: Command, n: nat, i: nat, o: Obj)
    requires Apart(s, c) && (n, o.kind) in s.tables && o != c.o
    ensures RemoveFromSession(FirstHalf(s, c), n, i, o) == FirstHalf(RemoveFromSession(s, n, i, o), c)
  {
    DeleteTables(s.tables, c, (n, o.kind), o);
  }

  lemma HalfIdOf(s: State, c: Command, n: nat, o: Obj)
    requires Apart(s, c) && StepClosed(n, o) != StepClosed(c.session, c.o) && (n, o.kind) in s.tables
    ensures var t, t' := s.tables[(n, o.kind)], PutHalf(s.tables, c)[(n, o.kind)];
      && (o in t'.idOf <==> o in t.idOf)
      && (o in t.idOf ==> t'.idOf[o] == t.idOf[o] && o != c.o)
  {
    assert Unknowing(s.tables[(n, o.kind)], c);
  }

  lemma ClosedBeside(s: State, c: Command, n: nat, o: Obj)
    requires Apart(s, c) && StepClosed(n, o) != StepClosed(c.session, c.o)
    ensures Next(FirstHalf(s, c), StepClosed(n, o)) == FirstHalf(Next(s, StepClosed(n, o)), c)
  {
    if (n, o.kind) in s.tables {
      HalfIdOf(s, c, n, o);
      if o in s.tables[(n, o.kind)].idOf {
        RemoveBeside(s, c, n, s.tables[(n, o.kind)].idOf[o], o);
      }
    }
  }

  lemma ClosedTakes(s: State, c: Command)
    requires Apart(s, c)
    ensures Next(FirstHalf(s, c), StepClosed(c.session, c.o)) == s == Next(s, StepClosed(c.session, c.o))
  {
    assert Unknowing(s.tables[Key(c)], c);
    DeleteUndoes(s.tables, c);
  }

  lemma ClearBeside(s: State, c: Command, n: nat, kind: Kind)
    requires Apart(s, c) && (n, kind) != Key(c)
    ensures Next(FirstHalf(s, c), StepClear(n, kind)) == FirstHalf(Next(s, StepClear(n, kind)), c)
  {
    if (n, kind) in s.tables {
      assert PutHalf(s.tables, c)[(n, kind) := EMPTY] == PutHalf(s.tables[(n, kind) := EMPTY], c);
    }
  }

  lemma EntriesStore(t: Table, i: nat, o: Obj)
    requires i !in t.byId
    ensures Entries(Store(t, i, o)) == Entries(t) + {(i, o)}
  {
    var t' := Store(t, i, o);
    forall e ensures e in Entries(t') <==> e in Entries(t) + {(i, o)} {
      assert e in Entries(t') <==> e.0 in t'.byId && t'.byId[e.0] == e.1;
      assert e in Entries(t) <==> e.0 in t.byId && t.byId[e.0] == e.1;
    }
  }

  lemma ClearTakes(s: State, c: Command)
    requires Apart(s, c)
    ensures Next(FirstHalf(s, c), StepClear(c.session, c.o.kind)) ==
      With(Next(s, StepClear(c.session, c.o.kind)), c, InClearing)
  {
    var t := s.tables[Key(c)];
    var t' := Store(t, c.id, c.o);
    assert Unknowing(t, c);
    EntriesStore(t, c.id, c.o);
    assert Clear(s, c.session, c.o.kind).clearing == s.clearing + Entries(t);
    assert Clear(FirstHalf(s, c), c.session, c.o.kind).clearing == s.clearing + Entries(t');
    assert PutHalf(s.tables, c)[Key(c) := EMPTY] == s.tables[Key(c) := EMPTY];
    assert ClearedOwners(s.owner, t') == ClearedOwners(s.owner, t);
  }

  lemma NewSessionBeside(s: State, c: Command, n: nat)
    requires Apart(s, c)
    ensures Next(FirstHalf(s, c), StepNewSession(n)) == FirstHalf(Next(s, StepNewSession(n)), c)
  {
    var ts := s.tables;
    if (n, Publisher) !in ts && (n, Subscriber) !in ts {
      assert PutHalf(ts, c)[(n, Publisher) := EMPTY][(n, Subscriber) := EMPTY]
          == PutHalf(ts[(n, Publisher) := EMPTY][(n, Subscriber) := EMPTY], c);
    }
  }

  lemma InTableStep(s: State, c: Command, step: Step)
    requires Apart(s, c) && Avoids(step, c) && Key(c) in Next(s, step).tables
    ensures Next(FirstHalf(s, c), step) == With(Next(s, step), c, NextHalf(InTable, c, step))
  {
    match step
    case StepNewSession(n) => NewSessionBeside(s, c, n);
    case StepCreate(n, i, o) => CreateBeside(s, c, n, i, o);
    case StepDelete(n, i, kind) => DeleteBeside(s, c, n, i, kind);
    case StepClosed(n, o) =>
      if step == StepClosed(c.session, c.o) { ClosedTakes(s, c); } else { ClosedBeside(s, c, n, o); }
    case StepClear(n, kind) =>
      if (n, kind) == Key(c) { ClearTakes(s, c); } else { ClearBeside(s, c, n, kind); }
    case StepClearOne(i, o) => ClearOneBeside(s, c, i, o);
    case StepShutdown =>
  }

  lemma ClearOneBeside(s: State, c: Command, i: nat, o: Obj)
    requires Key(c) in s.tables
    ensures Key(c) in Next(s, StepClearOne(i, o)).tables
    ensures Next(FirstHalf(s, c), StepClearOne(i, o)) == FirstHalf(Next(s, StepClearOne(i, o)), c)
  {
  }

  lemma ClearWhileClearing(s: State, c: Command, n: nat, kind: Kind)
    requires Key(c) in s.tables
    ensures Key(c) in Next(s, StepClear(n, kind)).tables
    ensures Next(With(s, c, InClearing), StepClear(n, kind)) == With(Next(s, StepClear(n, kind)), c, InClearing)
  {
    if (n, kind) in s.tables {
      var gone := Entries(s.tables[(n, kind)]);
      assert s.clearing + {(c.id, c.o)} + gone == s.clearing + gone + {(c.id, c.o)};
    }
  }

  lemma ClearOneWhileClearing(s: State, c: Command, i: nat, o: Obj)
    requires Apart(s, c)
    ensures Next(With(s, c, InClearing), StepClearOne(i, o)) ==
      With(Next(s, StepClearOne(i, o)), c, NextHalf(InClearing, c, StepClearOne(i, o)))
  {
    if (i, o) == (c.id, c.o) {
      assert s.clearing + {(c.id, c.o)} - {(c.id, c.o)} == s.clearing;
    } else {
      assert s.clearing + {(c.id, c.o)} - {(i, o)} == s.clearing - {(i, o)} + {(c.id, c.o)};
    }
  }

  lemma CommandWhileClearing(s: State, c: Command, step: Step)
    requires Key(c) in s.tables && Key(c) in Next(s, step).tables
    requires step.StepCreate? || step.StepDelete? || step.StepClosed?
    ensures Next(With(s, c, InClearing), step) == With(Next(s, step), c, InClearing)
  {
  }

  lemma InClearingStep(s: State, c: Command, step: Step)
    requires Apart(s, c) && Avoids(step, c) && Key(c) in Next(s, step).tables
    ensures Next(With(s, c, InClearing), step) == With(Next(s, step), c, NextHalf(InClearing, c, step))
  {
    match step
    case StepClear(n, kind) => ClearWhileClearing(s, c, n, kind);
    case StepClearOne(i, o) => ClearOneWhileClearing(s, c, i, o);
    case StepNewSession(_) =>
    case StepShutdown =>
    case _ => CommandWhileClearing(s, c, step);
  }

  lemma BetweenStep(s: State, c: Command, half: Half, step: Step)
    requires Apart(s, c) && Avoids(step, c)
    ensures Apart(Next(s, step), c)
    ensures Next(With(s, c, half), step) == With(Next(s, step), c, NextHalf(half, c, step))
  {
    ApartStays(s, c, step);
    match half
    case InTable => InTableStep(s, c, step);
    case InClearing => InClearingStep(s, c, step);
    case Lost =>
  }

  /** Between its halves a command changes nothing of what the other steps do. */
  lemma {:induction false} Between(s: State, c: Command, steps: seq<Step>)
    requires Apart(s, c) && forall i :: 0 <= i < |steps| ==> Avoids(steps[i], c)
    ensures Apart(RunFrom(s, steps), c)
    ensures RunFrom(FirstHalf(s, c), steps) == With(RunFrom(s, steps), c, HalfAfter(c, steps))
  {
    if steps != [] {
      var before, step := steps[..|steps| - 1], steps[|steps| - 1];
      Between(s, c, before);
      BetweenStep(RunFrom(s, before), c, HalfAfter(c, before), step);
    }
  }

  // ---- The leak ----

  /** The object is registered, and no session and no clear that is under way knows it. */
  ghost predicate Leaked(s: State, c: Command) {
    c.id in s.clients && s.clients[c.id] == c.o && c.o.id in s.clientIds && NotHeld(s, c)
  }

  lemma LeakStep(s: State, c: Command, step: Step)
    requires Leaked(s, c)
    ensures Leaked(Next(s, step), c)
  {
    if Avoids(step, c) {
      NotHeldStep(s, c, step);
      RegisteredStays(s, c, step);
    }
  }

  lemma RegisteredStays(s: State, c: Command, step: Step)
    requires Leaked(s, c) && Avoids(step, c)
    ensures var s' := Next(s, step); c.id in s'.clients && s'.clients[c.id] == c.o && c.o.id in s'.clientIds
  {
    match step
    case StepDelete(n, i, kind) =>
      if (n, kind) in s.tables { assert Unknowing(s.tables[(n, kind)], c); }
    case StepClosed(n, o) =>
      if (n, o.kind) in s.tables { assert Unknowing(s.tables[(n, o.kind)], c); }
    case _ =>
  }

  /** Nothing ever removes a leaked object. */
  lemma {:induction false} LeakIsForever(s: State, c: Command, steps: seq<Step>)
    requires Leaked(s, c)
    ensures Leaked(RunFrom(s, steps), c)
  {
    if steps != [] {
      LeakIsForever(s, c, steps[..|steps| - 1]);
      LeakStep(RunFrom(s, steps[..|steps| - 1]), c, steps[|steps| - 1]);
    }
  }

  lemma SecondHalfLeaksIff(s: State, c: Command, half: Half)
    requires Apart(s, c)
    ensures Leaked(SecondHalf(With(s, c, half), c), c) <==> half.Lost?
  {
    var s' := SecondHalf(With(s, c, half), c);
    match half
    case InTable =>
      assert c.o in s'.tables[Key(c)].idOf;
      assert Leaked(s', c) ==> Unknowing(s'.tables[Key(c)], c);
    case InClearing => assert (c.id, c.o) in s'.clearing;
    case Lost =>
  }

  /**
   * For a command on any reachable state and any steps between its halves: the object leaks if and only
   * if, before it is registered, its close callback or a background delete of its cleared session has
   * come. Otherwise the command ends as if it were one step, or its object is about to be cleared.
   */
  lemma CreateLeaksIff(before: seq<Step>, c: Command, steps: seq<Step>)
    requires var s := Run(before); Key(c) in s.tables && Fresh(s, c.id, c.o)
    requires forall i :: 0 <= i < |steps| ==> Avoids(steps[i], c)
    ensures var s := Run(before);
      var end := SecondHalf(RunFrom(FirstHalf(s, c), steps), c);
      && Key(c) in RunFrom(s, steps).tables
      && (Leaked(end, c) <==> HalfAfter(c, steps).Lost?)
      && (HalfAfter(c, steps).InTable? ==>
            end.(owner := end.owner[c.id := InSession(c.session)]) == Create(RunFrom(s, steps), c.session, c.id, c.o))
      && (HalfAfter(c, steps).InClearing? ==> (c.id, c.o) in end.clearing)
  {
    RunKeepsInv(before);
    FreshIsApart(Run(before), c);
    Between(Run(before), c, steps);
    SecondHalfLeaksIff(RunFrom(Run(before), steps), c, HalfAfter(c, steps));
  }

  /** In terms of the steps: a close while nothing was cleared, or a background delete after a clear. */
  lemma {:induction false} LostIff(c: Command, steps: seq<Step>)
    ensures HalfAfter(c, steps).InTable? ==> !Cleared(c, steps, |steps|)
    ensures HalfAfter(c, steps).InClearing? ==> Cleared(c, steps, |steps|)
    ensures HalfAfter(c, steps).Lost? <==> exists j :: 0 <= j < |steps| && Takes(c, steps, j)
  {
    if steps != [] {
      var before, last := steps[..|steps| - 1], |steps| - 1;
      LostIff(c, before);
      assert forall j :: 0 <= j <= last ==> (Cleared(c, before, j) <==> Cleared(c, steps, j)) by {
        assert forall i :: 0 <= i < last ==> before[i] == steps[i];
      }
      assert Cleared(c, steps, |steps|) <==> Cleared(c, steps, last) || steps[last] == StepClear(c.session, c.o.kind);
      if exists j :: 0 <= j < last && Takes(c, before, j) {
        var j :| 0 <= j < last && Takes(c, before, j);
        assert Takes(c, steps, j);
      }
      if exists j :: 0 <= j < |steps| && Takes(c, steps, j) {
        var j :| 0 <= j < |steps| && Takes(c, steps, j);
        assert j < last ==> Takes(c, before, j);
      }
      if HalfAfter(c, steps).Lost? && !HalfAfter(c, before).Lost? {
        assert Takes(c, steps, last);
      }
    }
  }

  predicate Cleared(c: Command, steps: seq<Step>, j: nat)
    requires j <= |steps|
  {
    exists i :: 0 <= i < j && steps[i] == StepClear(c.session, c.o.kind)
  }

  predicate Takes(c: Command, steps: seq<Step>, j: nat)
    requires j < |steps|
  {
    if Cleared(c, steps, j) then steps[j] == StepClearOne(c.id, c.o) else steps[j] == StepClosed(c.session, c.o)
  }

  /** The shortest such run: a new session is cleared while its first publisher is created. */
  lemma ClearedCreateLeaks(c: Command)
    requires c.o.kind.Publisher?
    ensures var s := Run([StepNewSession(c.session)]);
      var steps := [StepClear(c.session, Publisher), StepClearOne(c.id, c.o)];
      && Key(c) in s.tables && Leaked(SecondHalf(RunFrom(FirstHalf(s, c), steps), c), c)
  {
    var first := [StepNewSession(c.session)];
    var clear, one := StepClear(c.session, Publisher), StepClearOne(c.id, c.o);
    assert first[..0] == [] && Run(first) == Next(INITIAL, first[0]);
    assert [clear, one][..1] == [clear] && [clear][..0] == [];
    assert HalfAfter(c, [clear]) == InClearing;
    CreateLeaksIff(first, c, [clear, one]);
  }
}
