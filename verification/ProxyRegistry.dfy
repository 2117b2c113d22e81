/**
 * The object registry of the proxy server. An MCU object is removed by an explicit delete, the
 * MCU's close callback, the expiry of its session or the loss of the MCU connection; the last
 * two swap out a session's tables and delete their objects one by one later. A command is one
 * step, and so is each of those deletes.
 */
module ProxyRegistrySpec {
  datatype Kind = Publisher | Subscriber

  /** An MCU object; `id` is the MCU's own, and differs from the id under which clients know it. */
  datatype Obj = Obj(id: nat, kind: Kind, streamType: string)

  /** One session's table for one kind: the objects by client id, and back. */
  datatype Table = Table(byId: map<nat, Obj>, idOf: map<Obj, nat>)

  const EMPTY := Table(map[], map[])

  /** Who will remove a registered object: the session that holds it, or a clear that is under way. */
  datatype Owner = InSession(session: nat) | InClear

  /**
   * `clients`, `clientIds`, the gauges and `shutdown` are the server's fields; `tables` are the
   * publisher and subscriber tables of all session objects; `clearing` are the deletes still to
   * come; `owner` and `removed` record the history.
   */
  datatype State = State(
    clients: map<nat, Obj>,
    clientIds: map<nat, nat>,
    tables: map<(nat, Kind), Table>,
    gauges: Gauges,
    shutdown: bool,
    clearing: set<(nat, Obj)>,
    owner: map<nat, Owner>,
    removed: seq<nat>)

  const INITIAL := State(map[], map[], map[], map[], false, {}, map[], [])

  type Gauges = map<(Kind, string), int>

  function Gauge(g: Gauges, k: Kind, streamType: string): int {
    if (k, streamType) in g then g[(k, streamType)] else 0
  }

  function AddGauge(g: Gauges, o: Obj, n: int): Gauges {
    g[(o.kind, o.streamType) := Gauge(g, o.kind, o.streamType) + n]
  }

  // ---- Table and registry operations ----

  function Store(t: Table, id: nat, o: Obj): Table {
    Table(t.byId[id := o], t.idOf[o := id])
  }

  function Delete(t: Table, o: Obj): Table {
    if o in t.idOf then Table(t.byId - {t.idOf[o]}, t.idOf - {o}) else t
  }

  /** Whether the client was registered decides whether its gauge goes down. */
  function DeleteClient(s: State, id: nat, o: Obj): State {
    if id !in s.clients then s
    else s.(clients := s.clients - {id}, clientIds := s.clientIds - {o.id}, gauges := AddGauge(s.gauges, o, -1),
            owner := s.owner - {id}, removed := s.removed + [id])
  }

  // ---- Steps ----

  datatype Step =
    | StepNewSession(session: nat)
    | StepCreate(session: nat, id: nat, o: Obj)
    | StepDelete(session: nat, id: nat, kind: Kind)
    | StepClosed(session: nat, o: Obj)
    | StepClear(session: nat, kind: Kind)
    | StepClearOne(id: nat, o: Obj)
    | StepShutdown

  /** Client ids and MCU ids are never reused. */
  predicate Fresh(s: State, id: nat, o: Obj) {
    id !in s.clients && id !in s.removed && o.id !in s.clientIds
  }

  /** A session's table hands back the object's id and the registry forgets it. */
  function RemoveFromSession(s: State, session: nat, id: nat, o: Obj): State
    requires (session, o.kind) in s.tables
  {
    var t := s.tables[(session, o.kind)];
    DeleteClient(s.(tables := s.tables[(session, o.kind) := Delete(t, o)]), id, o)
  }

  function Create(s: State, n: nat, id: nat, o: Obj): State
    requires (n, o.kind) in s.tables
  {
    s.(tables := s.tables[(n, o.kind) := Store(s.tables[(n, o.kind)], id, o)],
       clients := s.clients[id := o], clientIds := s.clientIds[o.id := id], gauges := AddGauge(s.gauges, o, 1),
       owner := s.owner[id := InSession(n)])
  }

  function ClearedOwners(owner: map<nat, Owner>, t: Table): map<nat, Owner> {
    map id | id in owner :: if id in t.byId then InClear else owner[id]
  }

  /** Swaps out a session's table; its objects will be deleted one by one. */
  function Clear(s: State, n: nat, kind: Kind): State
    requires (n, kind) in s.tables
  {
    var t := s.tables[(n, kind)];
    s.(tables := s.tables[(n, kind) := EMPTY],
       clearing := s.clearing + set id | id in t.byId :: (id, t.byId[id]),
       owner := ClearedOwners(s.owner, t))
  }

  /** An explicit delete has to name an object of the right kind that the session's table knows. */
  predicate MayDelete(s: State, n: nat, id: nat, kind: Kind) {
    && id in s.clients && s.clients[id].kind == kind
    && (n, kind) in s.tables && s.clients[id] in s.tables[(n, kind)].idOf
  }

  function Next(s: State, step: Step): State {
    match step
    case StepNewSession(n) =>
      if (n, Publisher) in s.tables || (n, Subscriber) in s.tables then s
      else s.(tables := s.tables[(n, Publisher) := EMPTY][(n, Subscriber) := EMPTY])
    case StepCreate(n, id, o) =>
      if (n, o.kind) !in s.tables || !Fresh(s, id, o) || (s.shutdown && o.kind.Publisher?) then s
      else Create(s, n, id, o)
    case StepDelete(n, id, kind) =>
      if !MayDelete(s, n, id, kind) then s else RemoveFromSession(s, n, id, s.clients[id])
    case StepClosed(n, o) =>
      if (n, o.kind) !in s.tables || o !in s.tables[(n, o.kind)].idOf then s
      else RemoveFromSession(s, n, s.tables[(n, o.kind)].idOf[o], o)
    case StepClear(n, kind) => if (n, kind) !in s.tables then s else Clear(s, n, kind)
    case StepClearOne(id, o) =>
      if (id, o) !in s.clearing then s else DeleteClient(s, id, o).(clearing := s.clearing - {(id, o)})
    case StepShutdown => s.(shutdown := true)
  }

  function Run(steps: seq<Step>): State {
    if steps == [] then INITIAL else Next(Run(steps[..|steps| - 1]), steps[|steps| - 1])
  }

  // ---- Invariant ----

  /** `clients` and `clientIds` are mutual inverses. */
  ghost predicate IdsInverse(clients: map<nat, Obj>, clientIds: map<nat, nat>) {
    && (forall id :: id in clients ==> clients[id].id in clientIds && clientIds[clients[id].id] == id)
    && (forall i :: i in clientIds ==> clientIds[i] in clients && clients[clientIds[i]].id == i)
  }

  /** The two maps of a table are mutual inverses and hold exactly the registered objects their session owns. */
  ghost predicate TableOk(clients: map<nat, Obj>, owner: map<nat, Owner>, session: nat, k: Kind, t: Table) {
    && (forall id :: id in t.byId <==>
          id in clients && id in owner && owner[id] == InSession(session) && clients[id].kind == k)
    && (forall id :: id in t.byId ==> t.byId[id] == clients[id] && t.byId[id] in t.idOf && t.idOf[t.byId[id]] == id)
    && (forall o :: o in t.idOf ==> t.idOf[o] in t.byId && t.byId[t.idOf[o]] == o)
  }

  ghost predicate TablesOk(s: State) {
    forall n, k :: (n, k) in s.tables ==> TableOk(s.clients, s.owner, n, k, s.tables[(n, k)])
  }

  /** Every registered object has one owner, and the owned by no session are about to be cleared. */
  ghost predicate OwnersOk(s: State) {
    && s.owner.Keys == s.clients.Keys
    && (forall id :: id in s.owner && s.owner[id].InSession? ==> (s.owner[id].session, s.clients[id].kind) in s.tables)
    && (forall id, o :: (id, o) in s.clearing <==> id in s.clients && s.owner[id] == InClear && s.clients[id] == o)
  }

  /** Nothing was removed twice, and nothing removed is registered. */
  ghost predicate RemovedOk(removed: seq<nat>, clients: map<nat, Obj>) {
    && (forall i, j :: 0 <= i < j < |removed| ==> removed[i] != removed[j])
    && (forall id :: id in removed ==> id !in clients)
  }

  function Counted(clients: map<nat, Obj>, k: Kind, streamType: string): set<nat> {
    set id | id in clients && clients[id].kind == k && clients[id].streamType == streamType
  }

  /** Each gauge is the number of registered objects of its kind and stream type. */
  ghost predicate GaugesOk(g: Gauges, clients: map<nat, Obj>) {
    forall k, streamType :: Gauge(g, k, streamType) == |Counted(clients, k, streamType)|
  }

  ghost predicate Inv(s: State) {
    && IdsInverse(s.clients, s.clientIds)
    && TablesOk(s)
    && OwnersOk(s)
    && RemovedOk(s.removed, s.clients)
    && GaugesOk(s.gauges, s.clients)
  }

  lemma CountedAdd(clients: map<nat, Obj>, id: nat, o: Obj, k: Kind, streamType: string)
    requires id !in clients
    ensures |Counted(clients[id := o], k, streamType)| ==
      |Counted(clients, k, streamType)| + if o.kind == k && o.streamType == streamType then 1 else 0
  {
    var c, c' := Counted(clients, k, streamType), Counted(clients[id := o], k, streamType);
    if o.kind == k && o.streamType == streamType {
      assert c' == c + {id};
    } else {
      assert c' == c;
    }
  }

  lemma CountedRemove(clients: map<nat, Obj>, id: nat, k: Kind, streamType: string)
    requires id in clients
    ensures |Counted(clients - {id}, k, streamType)| ==
      |Counted(clients, k, streamType)| -
        if clients[id].kind == k && clients[id].streamType == streamType then 1 else 0
  {
    assert (clients - {id})[id := clients[id]] == clients;
    CountedAdd(clients - {id}, id, clients[id], k, streamType);
  }

  // ---- Steps keep it ----

  lemma DeleteKeepsGauges(g: Gauges, clients: map<nat, Obj>, id: nat)
    requires GaugesOk(g, clients) && id in clients
    ensures GaugesOk(AddGauge(g, clients[id], -1), clients - {id})
  {
    forall k, streamType
      ensures Gauge(AddGauge(g, clients[id], -1), k, streamType) == |Counted(clients - {id}, k, streamType)|
    {
      assert Gauge(g, k, streamType) == |Counted(clients, k, streamType)|;
      CountedRemove(clients, id, k, streamType);
    }
  }

  lemma CreateKeepsGauges(g: Gauges, clients: map<nat, Obj>, id: nat, o: Obj)
    requires GaugesOk(g, clients) && id !in clients
    ensures GaugesOk(AddGauge(g, o, 1), clients[id := o])
  {
    forall k, streamType
      ensures Gauge(AddGauge(g, o, 1), k, streamType) == |Counted(clients[id := o], k, streamType)|
    {
      assert Gauge(g, k, streamType) == |Counted(clients, k, streamType)|;
      CountedAdd(clients, id, o, k, streamType);
    }
  }

  lemma DeleteKeepsIds(clients: map<nat, Obj>, clientIds: map<nat, nat>, removed: seq<nat>, id: nat)
    requires IdsInverse(clients, clientIds) && RemovedOk(removed, clients) && id in clients
    ensures IdsInverse(clients - {id}, clientIds - {clients[id].id}) && RemovedOk(removed + [id], clients - {id})
  {
  }

  /** Taking an object out of its own table and out of the registry. */
  lemma DeleteFromTable(clients: map<nat, Obj>, owner: map<nat, Owner>, session: nat, k: Kind, t: Table, id: nat)
    requires TableOk(clients, owner, session, k, t) && id in t.byId
    ensures TableOk(clients - {id}, owner - {id}, session, k, Delete(t, t.byId[id]))
  {
  }

  lemma OtherTable(clients: map<nat, Obj>, owner: map<nat, Owner>, session: nat, k: Kind, t: Table, id: nat)
    requires TableOk(clients, owner, session, k, t) && id !in t.byId
    ensures TableOk(clients - {id}, owner - {id}, session, k, t)
  {
  }

  lemma RemoveKeepsTables(s: State, session: nat, id: nat)
    requires TablesOk(s) && id in s.clients && id in s.owner && s.owner[id] == InSession(session)
    requires (session, s.clients[id].kind) in s.tables
    ensures TablesOk(RemoveFromSession(s, session, id, s.clients[id]))
  {
    var s' := RemoveFromSession(s, session, id, s.clients[id]);
    forall n, k | (n, k) in s'.tables ensures TableOk(s'.clients, s'.owner, n, k, s'.tables[(n, k)]) {
      assert TableOk(s.clients, s.owner, n, k, s.tables[(n, k)]);
      if id in s.tables[(n, k)].byId {
        DeleteFromTable(s.clients, s.owner, n, k, s.tables[(n, k)], id);
      } else {
        OtherTable(s.clients, s.owner, n, k, s.tables[(n, k)], id);
      }
    }
  }

  lemma RemoveKeepsOwners(s: State, session: nat, id: nat)
    requires OwnersOk(s) && id in s.clients && s.owner[id] == InSession(session)
    ensures OwnersOk(RemoveFromSession(s, session, id, s.clients[id]))
  {
  }

  lemma RemoveKeepsInv(s: State, session: nat, id: nat)
    requires Inv(s) && id in s.clients && s.owner[id] == InSession(session)
    ensures Inv(RemoveFromSession(s, session, id, s.clients[id]))
  {
    RemoveKeepsTables(s, session, id);
    RemoveKeepsOwners(s, session, id);
    DeleteKeepsIds(s.clients, s.clientIds, s.removed, id);
    DeleteKeepsGauges(s.gauges, s.clients, id);
  }

  /** An object that a session's table knows is registered under the id the table gives, and owned by the session. */
  lemma Owned(s: State, session: nat, o: Obj)
    requires Inv(s) && (session, o.kind) in s.tables && o in s.tables[(session, o.kind)].idOf
    ensures var id := s.tables[(session, o.kind)].idOf[o];
      && id in s.clients && s.clients[id] == o && id in s.owner && s.owner[id] == InSession(session)
      && o.id in s.clientIds && s.clientIds[o.id] == id
  {
    assert TableOk(s.clients, s.owner, session, o.kind, s.tables[(session, o.kind)]);
  }

  lemma StoreInTable(clients: map<nat, Obj>, owner: map<nat, Owner>, n: nat, m: nat, k: Kind, t: Table, id: nat, o: Obj)
    requires TableOk(clients, owner, m, k, t) && id !in clients && o !in t.idOf
    ensures TableOk(clients[id := o], owner[id := InSession(n)], m, k,
                    if m == n && k == o.kind then Store(t, id, o) else t)
  {
  }

  lemma CreateKeepsTables(s: State, n: nat, id: nat, o: Obj)
    requires Inv(s) && (n, o.kind) in s.tables && Fresh(s, id, o)
    ensures TablesOk(Create(s, n, id, o))
  {
    var s' := Create(s, n, id, o);
    forall m, k | (m, k) in s'.tables ensures TableOk(s'.clients, s'.owner, m, k, s'.tables[(m, k)]) {
      var t := s.tables[(m, k)];
      assert TableOk(s.clients, s.owner, m, k, t);
      assert o !in t.idOf;
      StoreInTable(s.clients, s.owner, n, m, k, t, id, o);
    }
  }

  lemma CreateKeepsIds(clients: map<nat, Obj>, clientIds: map<nat, nat>, id: nat, o: Obj)
    requires IdsInverse(clients, clientIds) && id !in clients && o.id !in clientIds
    ensures IdsInverse(clients[id := o], clientIds[o.id := id])
  {
  }

  lemma CreateKeepsOwners(s: State, n: nat, id: nat, o: Obj)
    requires OwnersOk(s) && (n, o.kind) in s.tables && id !in s.clients
    ensures OwnersOk(Create(s, n, id, o))
  {
  }

  lemma CreateKeepsInv(s: State, n: nat, id: nat, o: Obj)
    requires Inv(s) && (n, o.kind) in s.tables && Fresh(s, id, o)
    ensures Inv(Create(s, n, id, o))
  {
    CreateKeepsTables(s, n, id, o);
    CreateKeepsIds(s.clients, s.clientIds, id, o);
    CreateKeepsOwners(s, n, id, o);
    CreateKeepsGauges(s.gauges, s.clients, id, o);
  }

  lemma ClearTable(clients: map<nat, Obj>, owner: map<nat, Owner>, n: nat, k: Kind, t: Table, m: nat, l: Kind, u: Table)
    requires TableOk(clients, owner, n, k, t) && TableOk(clients, owner, m, l, u) && clients.Keys == owner.Keys
    ensures TableOk(clients, ClearedOwners(owner, t), m, l, if m == n && l == k then EMPTY else u)
  {
  }

  lemma ClearKeepsOwners(s: State, n: nat, k: Kind)
    requires OwnersOk(s) && TablesOk(s) && (n, k) in s.tables
    ensures OwnersOk(Clear(s, n, k))
  {
    assert TableOk(s.clients, s.owner, n, k, s.tables[(n, k)]);
  }

  lemma ClearKeepsInv(s: State, n: nat, k: Kind)
    requires Inv(s) && (n, k) in s.tables
    ensures Inv(Clear(s, n, k))
  {
    var s' := Clear(s, n, k);
    ClearKeepsOwners(s, n, k);
    forall m, l | (m, l) in s'.tables ensures TableOk(s'.clients, s'.owner, m, l, s'.tables[(m, l)]) {
      ClearTable(s.clients, s.owner, n, k, s.tables[(n, k)], m, l, s.tables[(m, l)]);
    }
  }

  lemma ClearOneKeepsInv(s: State, id: nat, o: Obj)
    requires Inv(s)
    ensures Inv(Next(s, StepClearOne(id, o)))
  {
    if (id, o) in s.clearing {
      var s' := Next(s, StepClearOne(id, o));
      DeleteKeepsIds(s.clients, s.clientIds, s.removed, id);
      DeleteKeepsGauges(s.gauges, s.clients, id);
      forall m, k | (m, k) in s'.tables ensures TableOk(s'.clients, s'.owner, m, k, s'.tables[(m, k)]) {
        assert TableOk(s.clients, s.owner, m, k, s.tables[(m, k)]);
        OtherTable(s.clients, s.owner, m, k, s.tables[(m, k)], id);
      }
    }
  }

  lemma NewSessionKeepsInv(s: State, n: nat)
    requires Inv(s)
    ensures Inv(Next(s, StepNewSession(n)))
  {
    var s' := Next(s, StepNewSession(n));
    forall m, k | (m, k) in s'.tables ensures TableOk(s'.clients, s'.owner, m, k, s'.tables[(m, k)]) {
      if (m, k) in s.tables { assert TableOk(s.clients, s.owner, m, k, s.tables[(m, k)]); }
    }
  }

  lemma StepKeepsInv(s: State, step: Step)
    requires Inv(s)
    ensures Inv(Next(s, step))
  {
    match step
    case StepNewSession(n) => NewSessionKeepsInv(s, n);
    case StepCreate(n, id, o) =>
      if (n, o.kind) in s.tables && Fresh(s, id, o) { CreateKeepsInv(s, n, id, o); }
    case StepDelete(n, id, kind) =>
      if MayDelete(s, n, id, kind) {
        Owned(s, n, s.clients[id]);
        RemoveKeepsInv(s, n, id);
      }
    case StepClosed(n, o) =>
      if (n, o.kind) in s.tables && o in s.tables[(n, o.kind)].idOf {
        Owned(s, n, o);
        RemoveKeepsInv(s, n, s.tables[(n, o.kind)].idOf[o]);
      }
    case StepClear(n, kind) => if (n, kind) in s.tables { ClearKeepsInv(s, n, kind); }
    case StepClearOne(id, o) => ClearOneKeepsInv(s, id, o);
    case StepShutdown =>
  }

  lemma {:induction false} RunKeepsInv(steps: seq<Step>)
    ensures Inv(Run(steps))
  {
    if steps != [] {
      RunKeepsInv(steps[..|steps| - 1]);
      StepKeepsInv(Run(steps[..|steps| - 1]), steps[|steps| - 1]);
    }
  }

  // ---- Properties of every run ----

  /** `clients` and `clientIds`, and the two maps of every session's tables, are mutual inverses. */
  lemma MapsAreInverse(steps: seq<Step>, id: nat, o: Obj, n: nat)
    ensures var s := Run(steps);
      && ((id in s.clients && s.clients[id].id == o.id) <==> (o.id in s.clientIds && s.clientIds[o.id] == id))
      && ((n, o.kind) in s.tables ==>
            var t := s.tables[(n, o.kind)];
            (id in t.byId && t.byId[id] == o) <==> (o in t.idOf && t.idOf[o] == id))
  {
    RunKeepsInv(steps);
    var s := Run(steps);
    if (n, o.kind) in s.tables { assert TableOk(s.clients, s.owner, n, o.kind, s.tables[(n, o.kind)]); }
  }

  /** Every gauge is the number of registered objects it counts. */
  lemma GaugesAreCounts(steps: seq<Step>, k: Kind, streamType: string)
    ensures var s := Run(steps);
      var counted := Counted(s.clients, k, streamType);
      && (if (k, streamType) in s.gauges then s.gauges[(k, streamType)] == |counted| else counted == {})
      && (forall id :: id in counted <==>
            id in s.clients && s.clients[id].kind == k && s.clients[id].streamType == streamType)
  {
    RunKeepsInv(steps);
    assert Gauge(Run(steps).gauges, k, streamType) == |Counted(Run(steps).clients, k, streamType)|;
  }

  /** The ids that the create commands of a run have entered. */
  function CreatedIds(steps: seq<Step>): set<nat> {
    if steps == [] then {}
    else
      var before, step := Run(steps[..|steps| - 1]), steps[|steps| - 1];
      CreatedIds(steps[..|steps| - 1])
        + if step.StepCreate? && step.id !in before.clients && step.id in Next(before, step).clients
          then {step.id} else {}
  }

  /** The ids that are registered or were removed. */
  function Known(s: State): set<nat> {
    s.clients.Keys + set id | id in s.removed
  }

  lemma DeleteKeepsKnown(s: State, id: nat, o: Obj)
    ensures Known(DeleteClient(s, id, o)) == Known(s)
  {
    if id in s.clients {
      assert forall x :: x in s.removed + [id] <==> x in s.removed || x == id;
    }
  }

  lemma StepKnows(s: State, step: Step)
    ensures Known(Next(s, step)) == Known(s)
      + if step.StepCreate? && step.id !in s.clients && step.id in Next(s, step).clients then {step.id} else {}
  {
    match step
    case StepDelete(n, id, kind) =>
      if MayDelete(s, n, id, kind) {
        var o, t := s.clients[id], s.tables[(n, kind)];
        DeleteKeepsKnown(s.(tables := s.tables[(n, kind) := Delete(t, o)]), id, o);
      }
    case StepClosed(n, o) =>
      if (n, o.kind) in s.tables && o in s.tables[(n, o.kind)].idOf {
        var t := s.tables[(n, o.kind)];
        DeleteKeepsKnown(s.(tables := s.tables[(n, o.kind) := Delete(t, o)]), t.idOf[o], o);
      }
    case StepClearOne(id, o) => DeleteKeepsKnown(s, id, o);
    case _ =>
  }

  /**
   * Whichever of the four paths removes an object, it is removed at most once, and at any moment every
   * object ever created is either still registered or removed.
   */
  lemma {:induction false} RemovedExactlyOnce(steps: seq<Step>)
    ensures var s := Run(steps);
      && (forall i, j :: 0 <= i < j < |s.removed| ==> s.removed[i] != s.removed[j])
      && s.clients.Keys !! (set id | id in s.removed)
      && CreatedIds(steps) == s.clients.Keys + (set id | id in s.removed)
  {
    RunKeepsInv(steps);
    if steps != [] {
      RemovedExactlyOnce(steps[..|steps| - 1]);
      StepKnows(Run(steps[..|steps| - 1]), steps[|steps| - 1]);
    }
  }

  lemma RegisteredIsHeld(s: State, id: nat)
    requires Inv(s) && id in s.clients
    ensures match s.owner[id]
      case InSession(n) => (n, s.clients[id].kind) in s.tables && id in s.tables[(n, s.clients[id].kind)].byId
      case InClear => (id, s.clients[id]) in s.clearing
  {
    if s.owner[id].InSession? {
      var key := (s.owner[id].session, s.clients[id].kind);
      assert TableOk(s.clients, s.owner, key.0, key.1, s.tables[key]);
    }
  }

  lemma MayDeleteIffOwned(s: State, n: nat, id: nat, kind: Kind)
    requires Inv(s)
    ensures MayDelete(s, n, id, kind) <==>
      id in s.clients && s.clients[id].kind == kind && id in s.owner && s.owner[id] == InSession(n)
  {
    if MayDelete(s, n, id, kind) {
      Owned(s, n, s.clients[id]);
    }
    if id in s.clients && s.clients[id].kind == kind && s.owner[id] == InSession(n) {
      assert TableOk(s.clients, s.owner, n, kind, s.tables[(n, kind)]);
    }
  }

  /** A session can delete exactly the objects it owns itself. */
  lemma DeletesOnlyItsOwn(steps: seq<Step>, n: nat, id: nat, kind: Kind)
    ensures var s := Run(steps);
      MayDelete(s, n, id, kind) <==>
        id in s.clients && s.clients[id].kind == kind && id in s.owner && s.owner[id] == InSession(n)
  {
    RunKeepsInv(steps);
    MayDeleteIffOwned(Run(steps), n, id, kind);
  }

  // ---- Seen from one object, the registry is a small automaton ----

  datatype Status = Unknown | Held(session: nat, o: Obj) | Clearing(o: Obj) | Removed

  function StatusOf(s: State, id: nat): Status {
    if id in s.clients then
      (if id in s.owner && s.owner[id].InSession? then Held(s.owner[id].session, s.clients[id])
       else Clearing(s.clients[id]))
    else if id in s.removed then Removed else Unknown
  }

  /** Each of the four ways to remove an object works in one status only. */
  function NextStatus(s: State, step: Step, id: nat): Status {
    var status := StatusOf(s, id);
    match step
    case StepCreate(n, i, o) =>
      if i == id && status.Unknown? && o.id !in s.clientIds && (n, o.kind) in s.tables
         && !(s.shutdown && o.kind.Publisher?)
      then Held(n, o) else status
    case StepDelete(n, i, kind) =>
      if i == id && status.Held? && status.session == n && status.o.kind == kind then Removed else status
    case StepClosed(n, o) => if status == Held(n, o) then Removed else status
    case StepClear(n, kind) =>
      if status.Held? && status.session == n && status.o.kind == kind then Clearing(status.o) else status
    case StepClearOne(i, o) => if i == id && status == Clearing(o) then Removed else status
    case _ => status
  }

  lemma RemoveMoves(s: State, n: nat, i: nat, o: Obj, id: nat)
    requires (n, o.kind) in s.tables && i in s.clients
    ensures StatusOf(RemoveFromSession(s, n, i, o), id) == if id == i then Removed else StatusOf(s, id)
  {
  }

  lemma DeleteMoves(s: State, n: nat, i: nat, kind: Kind, id: nat)
    requires Inv(s)
    ensures StatusOf(Next(s, StepDelete(n, i, kind)), id) == NextStatus(s, StepDelete(n, i, kind), id)
  {
    MayDeleteIffOwned(s, n, i, kind);
    if MayDelete(s, n, i, kind) {
      RemoveMoves(s, n, i, s.clients[i], id);
    }
  }

  lemma HeldIffInTable(s: State, n: nat, o: Obj, id: nat)
    requires OwnersOk(s) && (n, o.kind) in s.tables
    requires TableOk(s.clients, s.owner, n, o.kind, s.tables[(n, o.kind)])
    ensures var t := s.tables[(n, o.kind)];
      && (StatusOf(s, id) == Held(n, o) <==> o in t.idOf && t.idOf[o] == id)
      && (o in t.idOf ==> t.idOf[o] in s.clients)
  {
  }

  lemma HeldHasTable(s: State, n: nat, o: Obj, id: nat)
    requires OwnersOk(s) && StatusOf(s, id) == Held(n, o)
    ensures (n, o.kind) in s.tables
  {
  }

  lemma ClosedMoves(s: State, n: nat, o: Obj, id: nat)
    requires OwnersOk(s) && TablesOk(s)
    ensures StatusOf(Next(s, StepClosed(n, o)), id) == NextStatus(s, StepClosed(n, o), id)
  {
    if (n, o.kind) in s.tables {
      HeldIffInTable(s, n, o, id);
      if o in s.tables[(n, o.kind)].idOf {
        RemoveMoves(s, n, s.tables[(n, o.kind)].idOf[o], o, id);
      }
    } else if StatusOf(s, id) == Held(n, o) {
      HeldHasTable(s, n, o, id);
    }
  }

  lemma ClearMoves(s: State, n: nat, kind: Kind, id: nat)
    requires OwnersOk(s) && TablesOk(s)
    ensures StatusOf(Next(s, StepClear(n, kind)), id) == NextStatus(s, StepClear(n, kind), id)
  {
    if (n, kind) in s.tables {
      assert TableOk(s.clients, s.owner, n, kind, s.tables[(n, kind)]);
    }
  }

  lemma CreateMoves(s: State, n: nat, i: nat, o: Obj, id: nat)
    ensures StatusOf(Next(s, StepCreate(n, i, o)), id) == NextStatus(s, StepCreate(n, i, o), id)
  {
  }

  lemma DeleteClientMoves(s: State, i: nat, o: Obj, id: nat)
    ensures StatusOf(DeleteClient(s, i, o), id) == if id == i && i in s.clients then Removed else StatusOf(s, id)
  {
  }

  lemma ClearOneMoves(s: State, i: nat, o: Obj, id: nat)
    requires OwnersOk(s)
    ensures StatusOf(Next(s, StepClearOne(i, o)), id) == NextStatus(s, StepClearOne(i, o), id)
  {
    DeleteClientMoves(s, i, o, id);
    if (i, o) in s.clearing {
      assert StatusOf(s, i) == Clearing(o);
    }
  }

  lemma StepMoves(s: State, step: Step, id: nat)
    requires Inv(s)
    ensures StatusOf(Next(s, step), id) == NextStatus(s, step, id)
  {
    match step
    case StepCreate(n, i, o) => CreateMoves(s, n, i, o, id);
    case StepDelete(n, i, kind) => DeleteMoves(s, n, i, kind, id);
    case StepClosed(n, o) => ClosedMoves(s, n, o, id);
    case StepClear(n, kind) => ClearMoves(s, n, kind, id);
    case StepClearOne(i, o) => ClearOneMoves(s, i, o, id);
    case _ =>
  }

  /** In every run each object moves through its statuses exactly as the automaton says. */
  lemma ObjectIsAutomaton(steps: seq<Step>, step: Step, id: nat)
    ensures StatusOf(Next(Run(steps), step), id) == NextStatus(Run(steps), step, id)
  {
    RunKeepsInv(steps);
    StepMoves(Run(steps), step, id);
  }

  lemma CommandKeepsSessions(s: State, n: nat, id: nat, o: Obj)
    requires (n, o.kind) in s.tables
    ensures var t, t' := RemoveFromSession(s, n, id, o), Create(s, n, id, o);
      && t.tables.Keys == s.tables.Keys && t.shutdown == s.shutdown
      && t'.tables.Keys == s.tables.Keys && t'.shutdown == s.shutdown
  {
    assert s.tables[(n, o.kind) := Delete(s.tables[(n, o.kind)], o)].Keys == s.tables.Keys;
    assert s.tables[(n, o.kind) := Store(s.tables[(n, o.kind)], id, o)].Keys == s.tables.Keys;
  }

  /** A new session gets both of its tables, no session loses one, and shutdown is never taken back. */
  lemma SessionsAndShutdown(s: State, step: Step)
    requires forall n :: (n, Publisher) in s.tables <==> (n, Subscriber) in s.tables
    ensures var s' := Next(s, step);
      && (s'.shutdown <==> s.shutdown || step.StepShutdown?)
      && s'.tables.Keys == s.tables.Keys +
           (if step.StepNewSession? then {(step.session, Publisher), (step.session, Subscriber)} else {})
  {
    match step
    case StepCreate(n, id, o) => if (n, o.kind) in s.tables { CommandKeepsSessions(s, n, id, o); }
    case StepDelete(n, id, kind) => if MayDelete(s, n, id, kind) { CommandKeepsSessions(s, n, id, s.clients[id]); }
    case StepClosed(n, o) =>
      if (n, o.kind) in s.tables && o in s.tables[(n, o.kind)].idOf {
        CommandKeepsSessions(s, n, s.tables[(n, o.kind)].idOf[o], o);
      }
    case StepClear(n, kind) =>
      if (n, kind) in s.tables { assert s.tables[(n, kind) := EMPTY].Keys == s.tables.Keys; }
    case StepNewSession(n) =>
      assert s.tables[(n, Publisher) := EMPTY][(n, Subscriber) := EMPTY].Keys
          == s.tables.Keys + {(n, Publisher), (n, Subscriber)};
    case _ =>
  }

  /** Nothing leaks: once the tables are empty and no clear is under way, nothing is registered. */
  lemma NothingLeaks(steps: seq<Step>)
    requires var s := Run(steps); s.clearing == {} && forall key :: key in s.tables ==> s.tables[key].byId == map[]
    ensures Run(steps).clients == map[] && Run(steps).clientIds == map[]
  {
    RunKeepsInv(steps);
    var s := Run(steps);
    forall id ensures id !in s.clients {
      if id in s.clients { RegisteredIsHeld(s, id); }
    }
  }
}

/** The registry as an object; the commands and callbacks are its methods. */
module ProxyRegistry {
  import opened Options
  import S = ProxyRegistrySpec

  class ProxyServer {
    var clients: map<nat, S.Obj>
    var clientIds: map<nat, nat>
    var tables: map<(nat, S.Kind), S.Table>
    var gauges: S.Gauges
    var shutdownScheduled: bool
    var clearing: set<(nat, S.Obj)>
    ghost var owner: map<nat, S.Owner>
    ghost var removed: seq<nat>

    ghost function View(): S.State
      reads this
    {
      S.State(clients, clientIds, tables, gauges, shutdownScheduled, clearing, owner, removed)
    }

    constructor ()
      ensures View() == S.INITIAL && S.Inv(View())
    {
      clients, clientIds, tables, gauges, shutdownScheduled, clearing := map[], map[], map[], map[], false, {};
      owner, removed := map[], [];
    }

    method DeleteClient(id: nat, o: S.Obj) returns (deleted: bool)
      modifies this
      ensures View() == S.DeleteClient(old(View()), id, o).(gauges := old(gauges))
      ensures deleted <==> id in old(clients)
    {
      if id !in clients {
        return false;
      }
      clients := clients - {id};
      clientIds := clientIds - {o.id};
      owner, removed := owner - {id}, removed + [id];
      return true;
    }

    /** Removes an object from its session's table and returns the id it had there. */
    method DeleteFromSession(session: nat, o: S.Obj) returns (id: Option<nat>)
      requires (session, o.kind) in tables
      modifies this`tables
      ensures var t := old(tables)[(session, o.kind)];
        && id == (if o in t.idOf then Some(t.idOf[o]) else None)
        && tables == old(tables)[(session, o.kind) := S.Delete(t, o)]
    {
      var t := tables[(session, o.kind)];
      if o !in t.idOf {
        assert tables[(session, o.kind) := t] == tables;
        return None;
      }
      id := Some(t.idOf[o]);
      t := t.(byId := t.byId - {id.value});
      t := t.(idOf := t.idOf - {o});
      tables := tables[(session, o.kind) := t];
    }

    method CreateCommand(session: nat, id: nat, o: S.Obj) returns (ok: bool)
      requires (session, o.kind) in tables && S.Fresh(View(), id, o)
      modifies this
      ensures View() == S.Next(old(View()), S.StepCreate(session, id, o))
      ensures ok <==> !(shutdownScheduled && o.kind.Publisher?)
    {
      if o.kind.Publisher? && shutdownScheduled {
        return false;
      }
      tables := tables[(session, o.kind) := S.Store(tables[(session, o.kind)], id, o)];
      clients := clients[id := o];
      clientIds := clientIds[o.id := id];
      gauges := S.AddGauge(gauges, o, 1);
      owner := owner[id := S.InSession(session)];
      return true;
    }

    method DeleteCommand(session: nat, id: nat, kind: S.Kind) returns (ok: bool)
      requires (session, kind) in tables
      modifies this
      ensures View() == S.Next(old(View()), S.StepDelete(session, id, kind))
      ensures ok <==> S.MayDelete(old(View()), session, id, kind)
    {
      if id !in clients || clients[id].kind != kind {
        return false;
      }
      var o := clients[id];
      var found := DeleteFromSession(session, o);
      if found.None? {
        return false;
      }
      var deleted := DeleteClient(id, o);
      if deleted {
        gauges := S.AddGauge(gauges, o, -1);
      }
      return true;
    }

    /** The MCU's close callback. */
    method ObjectClosed(session: nat, o: S.Obj)
      requires (session, o.kind) in tables
      modifies this
      ensures View() == S.Next(old(View()), S.StepClosed(session, o))
    {
      var id := DeleteFromSession(session, o);
      if id.Some? {
        var deleted := DeleteClient(id.value, o);
        if deleted {
          gauges := S.AddGauge(gauges, o, -1);
        }
      }
    }

    /** Session expiry and loss of the MCU connection. */
    method ClearTable(session: nat, kind: S.Kind)
      requires (session, kind) in tables
      modifies this
      ensures View() == S.Next(old(View()), S.StepClear(session, kind))
    {
      var t := tables[(session, kind)];
      clearing := clearing + set id | id in t.byId :: (id, t.byId[id]);
      tables := tables[(session, kind) := S.EMPTY];
      owner := S.ClearedOwners(owner, t);
    }

    /** One delete of a clear that runs in the background. */
    method ClearOne(id: nat, o: S.Obj)
      requires (id, o) in clearing
      modifies this
      ensures View() == S.Next(old(View()), S.StepClearOne(id, o))
    {
      var deleted := DeleteClient(id, o);
      if deleted {
        gauges := S.AddGauge(gauges, o, -1);
      }
      clearing := clearing - {(id, o)};
    }
  }
}
