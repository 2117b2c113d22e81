/**
 * The gauges of published stream types and of their subscribers. Every publisher has its own counter
 * and moves the shared gauges by differences; over any history the gauges are the totals.
 */
module StreamGaugesSpec {
  datatype Counter = Counter(streamTypes: set<string>, subscribers: set<string>)

  /** The gauges by stream type; a label that was never used reads as zero. */
  datatype Stats = Stats(publishers: map<string, int>, subscribers: map<string, int>)

  datatype Action =
    | Reset
    | EnableStream(streamType: string, enable: bool)
    | AddSubscriber(id: string)
    | RemoveSubscriber(id: string)

  function Value(gauge: map<string, int>, streamType: string): int {
    if streamType in gauge then gauge[streamType] else 0
  }

  /** Moves the gauges of some stream types by the same amount. */
  function Moved(gauge: map<string, int>, streamTypes: set<string>, amount: int): map<string, int> {
    map t | t in gauge.Keys + streamTypes :: Value(gauge, t) + if t in streamTypes then amount else 0
  }

  lemma MovedOneMore(gauge: map<string, int>, done: set<string>, t: string, amount: int)
    requires t !in done
    ensures var moved := Moved(gauge, done, amount);
      moved[t := Value(moved, t) + amount] == Moved(gauge, done + {t}, amount)
  {
  }

  lemma MovedOne(gauge: map<string, int>, t: string, amount: int)
    ensures gauge[t := Value(gauge, t) + amount] == Moved(gauge, {t}, amount)
  {
  }

  function Act(c: Counter, action: Action): Counter {
    match action
    case Reset => Counter({}, {})
    case EnableStream(t, enable) =>
      c.(streamTypes := if enable then c.streamTypes + {t} else c.streamTypes - {t})
    case AddSubscriber(id) => c.(subscribers := c.subscribers + {id})
    case RemoveSubscriber(id) => c.(subscribers := c.subscribers - {id})
  }

  /** What the counter does to the gauges. */
  function Charge(g: Stats, c: Counter, action: Action): Stats {
    match action
    case Reset =>
      Stats(Moved(g.publishers, c.streamTypes, -1), Moved(g.subscribers, c.streamTypes, -|c.subscribers|))
    case EnableStream(t, enable) =>
      if enable == (t in c.streamTypes) then g
      else
        var sign := if enable then 1 else -1;
        Stats(Moved(g.publishers, {t}, sign), Moved(g.subscribers, {t}, sign * |c.subscribers|))
    case AddSubscriber(id) =>
      if id in c.subscribers then g else g.(subscribers := Moved(g.subscribers, c.streamTypes, 1))
    case RemoveSubscriber(id) =>
      if id !in c.subscribers then g else g.(subscribers := Moved(g.subscribers, c.streamTypes, -1))
  }

  // ---- Histories of any number of publishers ----

  datatype State = State(counters: seq<Counter>, stats: Stats)

  datatype Step = Open | On(index: nat, action: Action)

  function Next(s: State, step: Step): State {
    match step
    case Open => s.(counters := s.counters + [Counter({}, {})])
    case On(i, action) =>
      if i >= |s.counters| then s
      else State(s.counters[i := Act(s.counters[i], action)], Charge(s.stats, s.counters[i], action))
  }

  function Run(steps: seq<Step>): State {
    if steps == [] then State([], Stats(map[], map[]))
    else Next(Run(steps[..|steps| - 1]), steps[|steps| - 1])
  }

  function Publishing(c: Counter, t: string): nat {
    if t in c.streamTypes then 1 else 0
  }

  function Subscribed(c: Counter, t: string): nat {
    if t in c.streamTypes then |c.subscribers| else 0
  }

  /** How many publishers have the stream type. */
  function Publishers(cs: seq<Counter>, t: string): nat {
    if cs == [] then 0 else Publishers(cs[..|cs| - 1], t) + Publishing(cs[|cs| - 1], t)
  }

  /** How many subscribers the publishers with the stream type have together. */
  function Subscribers(cs: seq<Counter>, t: string): nat {
    if cs == [] then 0 else Subscribers(cs[..|cs| - 1], t) + Subscribed(cs[|cs| - 1], t)
  }

  /** Whether a publisher has a stream type, by the history of its own counter. */
  function Streams(steps: seq<Step>, i: nat, t: string): bool {
    if steps == [] then false
    else
      var before, step := Streams(steps[..|steps| - 1], i, t), steps[|steps| - 1];
      if step == On(i, Reset) || step == On(i, EnableStream(t, false)) then false
      else if step == On(i, EnableStream(t, true)) then i < Opened(steps)
      else before
  }

  /** Whether somebody subscribes to a publisher, by the history of its own counter. */
  function Subscribes(steps: seq<Step>, i: nat, id: string): bool {
    if steps == [] then false
    else
      var before, step := Subscribes(steps[..|steps| - 1], i, id), steps[|steps| - 1];
      if step == On(i, Reset) || step == On(i, RemoveSubscriber(id)) then false
      else if step == On(i, AddSubscriber(id)) then i < Opened(steps)
      else before
  }

  function Opened(steps: seq<Step>): nat {
    if steps == [] then 0 else Opened(steps[..|steps| - 1]) + if steps[|steps| - 1].Open? then 1 else 0
  }

  /** Every counter holds what its own history says, and resets empty both of its sets. */
  lemma {:induction false} CountersAreHistories(steps: seq<Step>, i: nat, t: string, id: string)
    ensures var cs := Run(steps).counters;
      && |cs| == Opened(steps)
      && (i < |cs| ==>
            && (t in cs[i].streamTypes <==> Streams(steps, i, t))
            && (id in cs[i].subscribers <==> Subscribes(steps, i, id)))
      && (i >= |cs| ==> !Streams(steps, i, t) && !Subscribes(steps, i, id))
  {
    if steps != [] {
      CountersAreHistories(steps[..|steps| - 1], i, t, id);
    }
  }

  lemma {:induction false} TotalsAfterUpdate(cs: seq<Counter>, i: nat, c: Counter, t: string)
    requires i < |cs|
    ensures Publishers(cs[i := c], t) == Publishers(cs, t) - Publishing(cs[i], t) + Publishing(c, t)
    ensures Subscribers(cs[i := c], t) == Subscribers(cs, t) - Subscribed(cs[i], t) + Subscribed(c, t)
  {
    var n := |cs| - 1;
    if i == n {
      assert cs[i := c][..n] == cs[..n];
    } else {
      assert cs[i := c][..n] == cs[..n][i := c];
      TotalsAfterUpdate(cs[..n], i, c, t);
    }
  }

  /** Every action moves the gauges by exactly what it changes in the counter. */
  lemma ChargeIsDifference(g: Stats, c: Counter, action: Action, t: string)
    ensures Value(Charge(g, c, action).publishers, t) ==
      Value(g.publishers, t) - Publishing(c, t) + Publishing(Act(c, action), t)
    ensures Value(Charge(g, c, action).subscribers, t) ==
      Value(g.subscribers, t) - Subscribed(c, t) + Subscribed(Act(c, action), t)
  {
    match action {
      case Reset =>
      case EnableStream(_, _) =>
      case AddSubscriber(id) =>
        assert id in c.subscribers ==> c.subscribers + {id} == c.subscribers;
      case RemoveSubscriber(id) =>
        assert id !in c.subscribers ==> c.subscribers - {id} == c.subscribers;
    }
  }

  lemma {:induction false} GaugesAreTotals(steps: seq<Step>, t: string)
    ensures var s := Run(steps);
      && Value(s.stats.publishers, t) == Publishers(s.counters, t)
      && Value(s.stats.subscribers, t) == Subscribers(s.counters, t)
  {
    if steps != [] {
      var s, step := Run(steps[..|steps| - 1]), steps[|steps| - 1];
      GaugesAreTotals(steps[..|steps| - 1], t);
      match step {
        case Open =>
          assert (s.counters + [Counter({}, {})])[..|s.counters|] == s.counters;
        case On(i, action) =>
          if i < |s.counters| {
            ChargeIsDifference(s.stats, s.counters[i], action, t);
            TotalsAfterUpdate(s.counters, i, Act(s.counters[i], action), t);
          }
      }
    }
  }

  lemma {:induction false} EmptyTotals(cs: seq<Counter>, t: string)
    requires forall c :: c in cs ==> t !in c.streamTypes
    ensures Publishers(cs, t) == 0 && Subscribers(cs, t) == 0
  {
    if cs != [] {
      EmptyTotals(cs[..|cs| - 1], t);
    }
  }

  /** Once no publisher has a stream type, both its gauges read zero, whatever came before. */
  lemma GaugesReturnToZero(steps: seq<Step>, t: string)
    requires forall c :: c in Run(steps).counters ==> t !in c.streamTypes
    ensures Value(Run(steps).stats.publishers, t) == 0 && Value(Run(steps).stats.subscribers, t) == 0
  {
    GaugesAreTotals(steps, t);
    EmptyTotals(Run(steps).counters, t);
  }
}

/** The counter that each publisher holds, moving gauges it shares with all others. */
module StreamGauges {
  import S = StreamGaugesSpec

  class Gauges {
    var publishers: map<string, int>
    var subscribers: map<string, int>

    ghost function View(): S.Stats
      reads this
    {
      S.Stats(publishers, subscribers)
    }

    constructor ()
      ensures View() == S.Stats(map[], map[])
    {
      publishers, subscribers := map[], map[];
    }
  }

  class PublisherStatsCounter {
    const gauges: Gauges
    var streamTypes: set<string>
    var subscribers: set<string>

    ghost function View(): S.Counter
      reads this
    {
      S.Counter(streamTypes, subscribers)
    }

    constructor (gauges: Gauges)
      ensures this.gauges == gauges && View() == S.Counter({}, {})
    {
      this.gauges := gauges;
      streamTypes, subscribers := {}, {};
    }

    method Reset()
      modifies this, gauges
      ensures View() == S.Act(old(View()), S.Reset)
      ensures gauges.View() == S.Charge(old(gauges.View()), old(View()), S.Reset)
    {
      var count := |subscribers|;
      var left := streamTypes;
      while left != {}
        invariant left <= streamTypes == old(streamTypes) && subscribers == old(subscribers)
        invariant gauges.publishers == S.Moved(old(gauges.publishers), streamTypes - left, -1)
        invariant gauges.subscribers == S.Moved(old(gauges.subscribers), streamTypes - left, -count)
        decreases left
      {
        var t :| t in left;
        S.MovedOneMore(old(gauges.publishers), streamTypes - left, t, -1);
        S.MovedOneMore(old(gauges.subscribers), streamTypes - left, t, -count);
        assert streamTypes - (left - {t}) == streamTypes - left + {t};
        gauges.publishers := gauges.publishers[t := S.Value(gauges.publishers, t) - 1];
        gauges.subscribers := gauges.subscribers[t := S.Value(gauges.subscribers, t) - count];
        left := left - {t};
      }
      assert streamTypes - left == streamTypes;
      streamTypes, subscribers := {}, {};
    }

    method EnableStream(streamType: string, enable: bool)
      modifies this, gauges
      ensures View() == S.Act(old(View()), S.EnableStream(streamType, enable))
      ensures gauges.View() == S.Charge(old(gauges.View()), old(View()), S.EnableStream(streamType, enable))
    {
      if enable == (streamType in streamTypes) {
        assert if enable then streamTypes + {streamType} == streamTypes else streamTypes - {streamType} == streamTypes;
        return;
      }
      ghost var sign := if enable then 1 else -1;
      S.MovedOne(gauges.publishers, streamType, sign);
      S.MovedOne(gauges.subscribers, streamType, sign * |subscribers|);
      if enable {
        streamTypes := streamTypes + {streamType};
        gauges.publishers := gauges.publishers[streamType := S.Value(gauges.publishers, streamType) + 1];
        gauges.subscribers :=
          gauges.subscribers[streamType := S.Value(gauges.subscribers, streamType) + |subscribers|];
      } else {
        streamTypes := streamTypes - {streamType};
        gauges.publishers := gauges.publishers[streamType := S.Value(gauges.publishers, streamType) - 1];
        gauges.subscribers :=
          gauges.subscribers[streamType := S.Value(gauges.subscribers, streamType) - |subscribers|];
      }
    }

    method AddSubscriber(id: string)
      modifies this, gauges
      ensures View() == S.Act(old(View()), S.AddSubscriber(id))
      ensures gauges.View() == S.Charge(old(gauges.View()), old(View()), S.AddSubscriber(id))
    {
      if id in subscribers {
        assert subscribers + {id} == subscribers;
        return;
      }
      subscribers := subscribers + {id};
      MoveSubscribers(1);
    }

    method RemoveSubscriber(id: string)
      modifies this, gauges
      ensures View() == S.Act(old(View()), S.RemoveSubscriber(id))
      ensures gauges.View() == S.Charge(old(gauges.View()), old(View()), S.RemoveSubscriber(id))
    {
      if id !in subscribers {
        assert subscribers - {id} == subscribers;
        return;
      }
      subscribers := subscribers - {id};
      MoveSubscribers(-1);
    }

    /** The loop over the enabled stream types. */
    method MoveSubscribers(amount: int)
      modifies gauges
      ensures gauges.publishers == old(gauges.publishers)
      ensures gauges.subscribers == S.Moved(old(gauges.subscribers), streamTypes, amount)
    {
      var left := streamTypes;
      while left != {}
        invariant left <= streamTypes && gauges.publishers == old(gauges.publishers)
        invariant gauges.subscribers == S.Moved(old(gauges.subscribers), streamTypes - left, amount)
        decreases left
      {
        var t :| t in left;
        S.MovedOneMore(old(gauges.subscribers), streamTypes - left, t, amount);
        assert streamTypes - (left - {t}) == streamTypes - left + {t};
        gauges.subscribers := gauges.subscribers[t := S.Value(gauges.subscribers, t) + amount];
        left := left - {t};
      }
      assert streamTypes - left == streamTypes;
    }
  }
}
