/**
 * Backend requests for a room arrive in any order, carrying the time at which they were received.
 * A request older than the newest one seen of its type is ignored; accepted "update" requests go
 * through a channel to the hub, which stores and publishes the room's new properties, and the other
 * known types are passed on to the hub or the room.
 */
module RoomUpdatesSpec {
  import opened Options

  type Properties = Option<string>

  /** The type of a request; an unknown one is only logged. */
  datatype Kind = Update | Delete | InCall | Participants | RoomMessage | Unknown(name: string)

  datatype Request = Request(kind: Kind, received: int, properties: Properties)

  /** `passed` are the accepted requests of the other types in the order in which they were passed on. */
  datatype State = State(
    last: map<Kind, int>,
    updates: seq<Request>,
    passed: seq<Request>,
    properties: Properties,
    published: seq<Properties>)

  datatype Step = Arrive(request: Request) | HubUpdate

  predicate IsPassedOn(kind: Kind) {
    kind.Delete? || kind.InCall? || kind.Participants? || kind.RoomMessage?
  }

  predicate Ignored(s: State, r: Request) {
    r.kind in s.last && s.last[r.kind] > r.received
  }

  function ProcessRequest(s: State, r: Request): State {
    if Ignored(s, r) then s
    else s.(last := s.last[r.kind := r.received],
            updates := if r.kind == Update then s.updates + [r] else s.updates,
            passed := if IsPassedOn(r.kind) then s.passed + [r] else s.passed)
  }

  function UpdateProperties(s: State, properties: Properties): State {
    if s.properties == properties then s
    else s.(properties := properties, published := s.published + [properties])
  }

  function Next(s: State, step: Step): State {
    match step
    case Arrive(r) => ProcessRequest(s, r)
    case HubUpdate =>
      if s.updates == [] then s
      else UpdateProperties(s.(updates := s.updates[1..]), s.updates[0].properties)
  }

  function Run(initial: Properties, steps: seq<Step>): State {
    if steps == [] then State(map[], [], [], initial, [])
    else Next(Run(initial, steps[..|steps| - 1]), steps[|steps| - 1])
  }

  function ArrivedIn(step: Step, kind: Kind): seq<Request> {
    if step.Arrive? && step.request.kind == kind then [step.request] else []
  }

  /** The requests of one type in a run, in the order of their arrival. */
  function Arrivals(steps: seq<Step>, kind: Kind): seq<Request> {
    if steps == [] then [] else Arrivals(steps[..|steps| - 1], kind) + ArrivedIn(steps[|steps| - 1], kind)
  }

  function TakenIn(s: State, step: Step): seq<Request> {
    if step.HubUpdate? && s.updates != [] then [s.updates[0]] else []
  }

  /** The requests the hub has taken from the channel. */
  function Taken(initial: Properties, steps: seq<Step>): seq<Request> {
    if steps == [] then []
    else
      var before := steps[..|steps| - 1];
      Taken(initial, before) + TakenIn(Run(initial, before), steps[|steps| - 1])
  }

  // ---- Which requests are handled ----

  predicate NoneNewer(us: seq<Request>, r: Request) {
    forall u :: u in us ==> u.received <= r.received
  }

  /** The requests that are no older than any that arrived before them. */
  function Records(us: seq<Request>): seq<Request> {
    if us == [] then []
    else
      var before, u := us[..|us| - 1], us[|us| - 1];
      Records(before) + if NoneNewer(before, u) then [u] else []
  }

  lemma {:induction false} LastRecord(us: seq<Request>)
    requires us != []
    ensures Records(us) != []
    ensures Records(us)[|Records(us)| - 1] in us && NoneNewer(us, Records(us)[|Records(us)| - 1])
  {
    var before, u := us[..|us| - 1], us[|us| - 1];
    assert us == before + [u];
    if NoneNewer(before, u) {
      assert Records(us) == Records(before) + [u];
    } else {
      LastRecord(before);
      assert Records(us) == Records(before);
      var v :| v in before && v.received > u.received;
    }
  }

  /** Handled requests come in the order of their times. */
  lemma {:induction false} RecordsAscend(us: seq<Request>, i: nat, j: nat)
    requires i < j < |Records(us)|
    ensures Records(us)[i].received <= Records(us)[j].received
  {
    var n := |us| - 1;
    if j < |Records(us[..n])| {
      RecordsAscend(us[..n], i, j);
    } else {
      RecordsArrived(us[..n]);
      assert Records(us)[i] in Records(us[..n]);
    }
  }

  lemma {:induction false} RecordsArrived(us: seq<Request>)
    ensures forall r :: r in Records(us) ==> r in us
  {
    if us != [] {
      var n := |us| - 1;
      RecordsArrived(us[..n]);
      assert us == us[..n] + [us[n]];
    }
  }

  /** The remembered time of a type is the greatest that arrived. */
  ghost predicate LastIsNewest(last: map<Kind, int>, kind: Kind, us: seq<Request>) {
    && (kind in last <==> us != [])
    && (us != [] ==>
         (forall u :: u in us ==> u.received <= last[kind]) && (exists u :: u in us && u.received == last[kind]))
  }

  lemma IgnoredIffOlder(s: State, us: seq<Request>, r: Request)
    requires LastIsNewest(s.last, r.kind, us)
    ensures Ignored(s, r) <==> !NoneNewer(us, r)
  {
  }

  lemma LastAfterArrival(s: State, us: seq<Request>, r: Request)
    requires LastIsNewest(s.last, r.kind, us)
    ensures LastIsNewest(ProcessRequest(s, r).last, r.kind, us + [r])
  {
    IgnoredIffOlder(s, us, r);
    assert r in us + [r];
    if Ignored(s, r) {
      var u :| u in us && u.received == s.last[r.kind];
      assert u in us + [r];
    }
  }

  lemma {:induction false} RunRemembersNewest(initial: Properties, steps: seq<Step>, kind: Kind)
    ensures LastIsNewest(Run(initial, steps).last, kind, Arrivals(steps, kind))
  {
    if steps != [] {
      var n := |steps| - 1;
      RunRemembersNewest(initial, steps[..n], kind);
      if steps[n].Arrive? && steps[n].request.kind == kind {
        LastAfterArrival(Run(initial, steps[..n]), Arrivals(steps[..n], kind), steps[n].request);
      }
    }
  }

  function OfKind(rs: seq<Request>, kind: Kind): seq<Request> {
    if rs == [] then []
    else OfKind(rs[..|rs| - 1], kind) + if rs[|rs| - 1].kind == kind then [rs[|rs| - 1]] else []
  }

  lemma OfKindAppend(rs: seq<Request>, r: Request, kind: Kind)
    ensures OfKind(rs + [r], kind) == OfKind(rs, kind) + if r.kind == kind then [r] else []
  {
    assert (rs + [r])[..|rs|] == rs;
  }

  lemma PassedArrival(s: State, us: seq<Request>, r: Request)
    requires LastIsNewest(s.last, r.kind, us)
    requires OfKind(s.passed, r.kind) == if IsPassedOn(r.kind) then Records(us) else []
    ensures OfKind(ProcessRequest(s, r).passed, r.kind) == if IsPassedOn(r.kind) then Records(us + [r]) else []
  {
    OfKindAppend(s.passed, r, r.kind);
    IgnoredIffOlder(s, us, r);
    RecordsAppend(us, r);
  }

  lemma PassedOther(s: State, step: Step, kind: Kind)
    requires ArrivedIn(step, kind) == []
    ensures OfKind(Next(s, step).passed, kind) == OfKind(s.passed, kind)
  {
    if step.Arrive? {
      OfKindAppend(s.passed, step.request, kind);
      assert OfKind(s.passed, kind) + [] == OfKind(s.passed, kind);
    }
  }

  lemma PassedStep(s: State, us: seq<Request>, step: Step, kind: Kind)
    requires LastIsNewest(s.last, kind, us) && OfKind(s.passed, kind) == if IsPassedOn(kind) then Records(us) else []
    ensures OfKind(Next(s, step).passed, kind) ==
      if IsPassedOn(kind) then Records(us + ArrivedIn(step, kind)) else []
  {
    if step.Arrive? && step.request.kind == kind {
      PassedArrival(s, us, step.request);
    } else {
      PassedOther(s, step, kind);
      assert us + [] == us;
    }
  }

  /** Of every other known type exactly the records are passed on, in order; of unknown types nothing is. */
  lemma {:induction false} PassedAreRecords(initial: Properties, steps: seq<Step>, kind: Kind)
    ensures OfKind(Run(initial, steps).passed, kind) ==
      if kind in {Delete, InCall, Participants, RoomMessage} then Records(Arrivals(steps, kind)) else []
  {
    if steps != [] {
      var before := steps[..|steps| - 1];
      PassedAreRecords(initial, before, kind);
      RunRemembersNewest(initial, before, kind);
      PassedStep(Run(initial, before), Arrivals(before, kind), steps[|steps| - 1], kind);
    }
  }

  lemma RecordsAppend(us: seq<Request>, u: Request)
    ensures Records(us + [u]) == Records(us) + if NoneNewer(us, u) then [u] else []
  {
    assert (us + [u])[..|us|] == us;
  }

  lemma HandledStep(taken: seq<Request>, s: State, us: seq<Request>, step: Step)
    requires taken + s.updates == Records(us) && LastIsNewest(s.last, Update, us)
    ensures taken + TakenIn(s, step) + Next(s, step).updates == Records(us + ArrivedIn(step, Update))
  {
    match step {
      case Arrive(r) =>
        if r.kind == Update {
          IgnoredIffOlder(s, us, r);
          RecordsAppend(us, r);
          assert taken + [] == taken && taken + (s.updates + [r]) == taken + s.updates + [r];
        } else {
          assert taken + [] == taken && us + [] == us;
        }
      case HubUpdate =>
        assert us + [] == us;
        if s.updates != [] {
          assert taken + [s.updates[0]] + s.updates[1..] == taken + s.updates;
        } else {
          assert taken + [] == taken;
        }
    }
  }

  /** Whatever the interleaving, what is taken or queued is exactly the records, in order. */
  lemma {:induction false} HandledAreRecords(initial: Properties, steps: seq<Step>)
    ensures Taken(initial, steps) + Run(initial, steps).updates == Records(Arrivals(steps, Update))
  {
    if steps != [] {
      var before := steps[..|steps| - 1];
      HandledAreRecords(initial, before);
      RunRemembersNewest(initial, before, Update);
      HandledStep(Taken(initial, before), Run(initial, before), Arrivals(before, Update), steps[|steps| - 1]);
    }
  }

  // ---- What the properties end up as ----

  function LastOf(initial: Properties, rs: seq<Request>): Properties {
    if rs == [] then initial else rs[|rs| - 1].properties
  }

  /** The properties after all requests were handled. */
  function Result(initial: Properties, us: seq<Request>): Properties {
    LastOf(initial, Records(us))
  }

  lemma {:induction false} PropertiesAreLastTaken(initial: Properties, steps: seq<Step>)
    ensures Run(initial, steps).properties == LastOf(initial, Taken(initial, steps))
  {
    if steps != [] {
      PropertiesAreLastTaken(initial, steps[..|steps| - 1]);
    }
  }

  /** Once the channel is drained, the properties depend on the arrivals alone. */
  lemma DrainedIsResult(initial: Properties, steps: seq<Step>)
    requires Run(initial, steps).updates == []
    ensures Run(initial, steps).properties == Result(initial, Arrivals(steps, Update))
  {
    PropertiesAreLastTaken(initial, steps);
    HandledAreRecords(initial, steps);
    assert Taken(initial, steps) + [] == Taken(initial, steps);
  }

  predicate IsNewest(us: seq<Request>, w: nat) {
    && w < |us|
    && (forall i :: 0 <= i < |us| ==> us[i].received <= us[w].received)
    && (forall i :: w < i < |us| ==> us[i].received < us[w].received)
  }

  /** Of the requests with the greatest time, the one that arrived last wins. */
  lemma {:induction false} NewestWins(initial: Properties, us: seq<Request>, w: nat)
    requires IsNewest(us, w)
    ensures Result(initial, us) == us[w].properties
  {
    var n := |us| - 1;
    if w == n {
      assert NoneNewer(us[..n], us[n]);
    } else {
      NewestWins(initial, us[..n], w);
      assert us[..n][w] in us[..n] && !NoneNewer(us[..n], us[n]);
    }
  }

  lemma {:induction false} NewestExists(us: seq<Request>) returns (w: nat)
    requires us != []
    ensures IsNewest(us, w)
  {
    var n := |us| - 1;
    w := n;
    if n > 0 {
      var v := NewestExists(us[..n]);
      if us[n].received < us[v].received {
        w := v;
      }
    }
  }

  /** All requests with the greatest time agree on the properties. */
  predicate NewestAgree(us: seq<Request>) {
    forall a, b :: a in us && b in us && NoneNewer(us, a) && NoneNewer(us, b) ==> a.properties == b.properties
  }

  lemma ResultIsOfNewest(initial: Properties, us: seq<Request>)
    requires us != []
    ensures exists a :: a in us && NoneNewer(us, a) && Result(initial, us) == a.properties
  {
    LastRecord(us);
  }

  lemma AgreedOrderDoesNotMatter(initial: Properties, us: seq<Request>, vs: seq<Request>)
    requires NewestAgree(us) && multiset(us) == multiset(vs)
    ensures Result(initial, us) == Result(initial, vs)
  {
    assert forall a :: a in us <==> a in multiset(us);
    assert forall a :: a in vs <==> a in multiset(vs);
    if us == [] {
      assert |vs| == |multiset(vs)|;
    } else {
      assert us[0] in vs;
      ResultIsOfNewest(initial, us);
      ResultIsOfNewest(initial, vs);
    }
  }

  /** Moving a request with the greatest time to the end makes it win. */
  lemma MovedToEndWins(initial: Properties, us: seq<Request>, i: nat)
    requires i < |us| && NoneNewer(us, us[i])
    ensures var vs := us[..i] + us[i + 1..] + [us[i]];
      multiset(vs) == multiset(us) && Result(initial, vs) == us[i].properties
  {
    assert us == us[..i] + [us[i]] + us[i + 1..];
    var vs := us[..i] + us[i + 1..] + [us[i]];
    forall k | 0 <= k < |vs| ensures vs[k].received <= vs[|vs| - 1].received {
      assert vs[k] in us;
    }
    NewestWins(initial, vs, |vs| - 1);
  }

  lemma DisagreedOrderMatters(initial: Properties, us: seq<Request>) returns (vs: seq<Request>)
    requires !NewestAgree(us)
    ensures multiset(vs) == multiset(us) && Result(initial, vs) != Result(initial, us)
  {
    var a, b :| a in us && b in us && NoneNewer(us, a) && NoneNewer(us, b) && a.properties != b.properties;
    var winner := if a.properties != Result(initial, us) then a else b;
    var i :| 0 <= i < |us| && us[i] == winner;
    MovedToEndWins(initial, us, i);
    vs := us[..i] + us[i + 1..] + [us[i]];
  }

  /**
   * The outcome is the same for every order of arrival if and only if the requests with the
   * greatest time agree, in particular when all times are distinct.
   */
  lemma OrderIndependentIff(initial: Properties, us: seq<Request>)
    ensures (forall vs :: multiset(vs) == multiset(us) ==> Result(initial, vs) == Result(initial, us))
      <==> NewestAgree(us)
  {
    if NewestAgree(us) {
      forall vs | multiset(vs) == multiset(us) ensures Result(initial, vs) == Result(initial, us) {
        AgreedOrderDoesNotMatter(initial, us, vs);
      }
    } else {
      var vs := DisagreedOrderMatters(initial, us);
    }
  }

  lemma DistinctTimesAgree(us: seq<Request>)
    requires forall i, j :: 0 <= i < j < |us| ==> us[i].received != us[j].received
    ensures NewestAgree(us)
  {
  }

  /** Two runs over the same update requests with distinct times, in any order, end the same. */
  lemma UpdatesConverge(initial: Properties, a: seq<Step>, b: seq<Step>)
    requires multiset(Arrivals(a, Update)) == multiset(Arrivals(b, Update))
    requires var us := Arrivals(a, Update); forall i, j :: 0 <= i < j < |us| ==> us[i].received != us[j].received
    requires Run(initial, a).updates == [] && Run(initial, b).updates == []
    ensures Run(initial, a).properties == Run(initial, b).properties
  {
    DistinctTimesAgree(Arrivals(a, Update));
    AgreedOrderDoesNotMatter(initial, Arrivals(a, Update), Arrivals(b, Update));
    DrainedIsResult(initial, a);
    DrainedIsResult(initial, b);
  }

  /** What a client that follows the room has been told, oldest first. */
  function Seen(initial: Properties, s: State): seq<Properties> {
    [initial] + s.published
  }

  predicate NoRepeats(seen: seq<Properties>) {
    forall i :: 0 <= i < |seen| - 1 ==> seen[i] != seen[i + 1]
  }

  /** Clients that follow the published updates know the current properties, and none is repeated. */
  lemma {:induction false} PublishedFollowsProperties(initial: Properties, steps: seq<Step>)
    ensures var s := Run(initial, steps);
      Seen(initial, s)[|s.published|] == s.properties && NoRepeats(Seen(initial, s))
  {
    if steps != [] {
      var s := Run(initial, steps[..|steps| - 1]);
      PublishedFollowsProperties(initial, steps[..|steps| - 1]);
      if steps[|steps| - 1].HubUpdate? && s.updates != [] {
        var p := s.updates[0].properties;
        assert [initial] + (s.published + [p]) == Seen(initial, s) + [p];
      }
    }
  }
}

/** The room, with the hub's channel for its updates. */
module RoomUpdates {
  import opened Options
  import S = RoomUpdatesSpec

  class Room {
    var lastNatsRoomRequests: map<S.Kind, int>
    var properties: S.Properties
    var roomUpdated: seq<S.Request>
    var published: seq<S.Properties>
    var passed: seq<S.Request>

    ghost function View(): S.State
      reads this
    {
      S.State(lastNatsRoomRequests, roomUpdated, passed, properties, published)
    }

    constructor (properties: S.Properties)
      ensures View() == S.Run(properties, [])
    {
      this.properties := properties;
      lastNatsRoomRequests, roomUpdated, published, passed := map[], [], [], [];
    }

    method ProcessBackendRoomRequest(message: S.Request)
      modifies this
      ensures View() == S.Next(old(View()), S.Arrive(message))
    {
      if message.kind in lastNatsRoomRequests && lastNatsRoomRequests[message.kind] > message.received {
        return;
      }
      lastNatsRoomRequests := lastNatsRoomRequests[message.kind := message.received];
      if message.kind == S.Update {
        roomUpdated := roomUpdated + [message];
      } else if S.IsPassedOn(message.kind) {
        passed := passed + [message];
      }
    }

    method UpdateProperties(properties: S.Properties)
      modifies this
      ensures View() == S.UpdateProperties(old(View()), properties)
    {
      if (this.properties.None? && properties.None?) ||
         (this.properties.Some? && properties.Some? && this.properties.value == properties.value) {
        return;
      }
      this.properties := properties;
      published := published + [properties];
    }

    /** The hub takes the next update from its channel. */
    method ProcessRoomUpdated()
      modifies this
      ensures View() == S.Next(old(View()), S.HubUpdate)
    {
      if roomUpdated == [] {
        return;
      }
      var message := roomUpdated[0];
      roomUpdated := roomUpdated[1..];
      UpdateProperties(message.properties);
    }
  }
}
