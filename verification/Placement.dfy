/**
 * Where a publisher is placed: connections in the initiator's country come first, then those on
 * the same or a mapped continent, then all others, and within each group the given order stays.
 * The table of continents is a parameter.
 */
module PlacementSpec {
  datatype Connection = Connection(id: nat, country: string, load: int, shutdown: bool)

  type Continents = map<string, seq<string>>

  predicate IsValidCountry(country: string) {
    country !in ["", "no-country", "loopback", "unknown-country"]
  }

  /** The initiator's country, the continents of every country, and the configured continent mapping. */
  datatype Geo = Geo(country: string, world: Continents, mapping: Continents)

  function Lookup(m: Continents, key: string): seq<string> {
    if key in m then m[key] else []
  }

  predicate Overlap(a: seq<string>, b: seq<string>) {
    exists i, j :: 0 <= i < |a| && 0 <= j < |b| && a[i] == b[j]
  }

  lemma OverlapMeans(a: seq<string>, b: seq<string>)
    ensures Overlap(a, b) <==> exists x :: x in a && x in b
  {
    if Overlap(a, b) {
      var i, j :| 0 <= i < |a| && 0 <= j < |b| && a[i] == b[j];
      assert a[i] in a && a[i] in b;
    }
  }

  function Mapped(continents: seq<string>, mapping: Continents): seq<string> {
    if continents == [] then []
    else Mapped(continents[..|continents| - 1], mapping) + Lookup(mapping, continents[|continents| - 1])
  }

  /** The country's own continents and those they are mapped to. */
  function Wanted(g: Geo): seq<string> {
    Lookup(g.world, g.country) + Mapped(Lookup(g.world, g.country), g.mapping)
  }

  predicate OnWantedContinent(c: Connection, g: Geo) {
    IsValidCountry(c.country) && Overlap(Wanted(g), Lookup(g.world, c.country))
  }

  function Tier(c: Connection, g: Geo): (t: nat)
    ensures t <= 2
  {
    if g.country == c.country then 0 else if g.country in g.world && OnWantedContinent(c, g) then 1 else 2
  }

  /** Some continent of the country is wanted for the initiator. */
  predicate SharesContinent(country: string, g: Geo) {
    country in g.world && exists x :: x in g.world[country] && IsWanted(g, x)
  }

  /** A connection is near if its country is known and shares a continent with the initiator's. */
  predicate Near(c: Connection, g: Geo) {
    && c.country != "" && c.country != "no-country" && c.country != "loopback" && c.country != "unknown-country"
    && SharesContinent(c.country, g)
  }

  lemma {:induction false} MappedMembers(continents: seq<string>, mapping: Continents, x: string)
    ensures x in Mapped(continents, mapping) <==>
      exists own :: own in continents && own in mapping && x in mapping[own]
  {
    if continents != [] {
      var n := |continents| - 1;
      MappedMembers(continents[..n], mapping, x);
      assert continents == continents[..n] + [continents[n]];
    }
  }

  /** What the groups are: the initiator's country, its own and mapped continents, and the rest. */
  lemma TierMeans(c: Connection, g: Geo)
    ensures Tier(c, g) == if c.country == g.country then 0 else if Near(c, g) then 1 else 2
  {
    var theirs := Lookup(g.world, c.country);
    if Overlap(Wanted(g), theirs) {
      var i, j :| 0 <= i < |Wanted(g)| && 0 <= j < |theirs| && Wanted(g)[i] == theirs[j];
      var x := theirs[j];
      assert x in theirs && x in Wanted(g);
      WantedMembers(g, x);
    }
    if Near(c, g) {
      var x :| x in g.world[c.country] && IsWanted(g, x);
      WantedMembers(g, x);
      var i :| 0 <= i < |Wanted(g)| && Wanted(g)[i] == x;
      var j :| 0 <= j < |theirs| && theirs[j] == x;
      assert Overlap(Wanted(g), theirs);
    }
  }

  /** A continent of the initiator's country, or one that such a continent is mapped to. */
  predicate IsWanted(g: Geo, x: string) {
    && g.country in g.world
    && (x in g.world[g.country]
        || exists own :: own in g.world[g.country] && own in g.mapping && x in g.mapping[own])
  }

  lemma WantedMembers(g: Geo, x: string)
    ensures x in Wanted(g) <==> IsWanted(g, x)
  {
    MappedMembers(Lookup(g.world, g.country), g.mapping, x);
  }

  /** The connections of one group, in the given order. */
  function InTier(cs: seq<Connection>, t: nat, g: Geo): seq<Connection> {
    if cs == [] then []
    else InTier(cs[..|cs| - 1], t, g) + if Tier(cs[|cs| - 1], g) == t then [cs[|cs| - 1]] else []
  }

  lemma {:induction false} InTierMembers(cs: seq<Connection>, t: nat, g: Geo)
    ensures forall c :: c in InTier(cs, t, g) <==> c in cs && Tier(c, g) == t
  {
    if cs != [] {
      var n := |cs| - 1;
      InTierMembers(cs[..n], t, g);
      assert cs == cs[..n] + [cs[n]];
    }
  }

  function ByTier(cs: seq<Connection>, g: Geo): seq<Connection> {
    InTier(cs, 0, g) + InTier(cs, 1, g) + InTier(cs, 2, g)
  }

  predicate LoadSorted(cs: seq<Connection>) {
    forall i, j :: 0 <= i < j < |cs| ==> cs[i].load <= cs[j].load
  }

  lemma InTierAppend(cs: seq<Connection>, c: Connection, t: nat, g: Geo)
    ensures InTier(cs + [c], t, g) ==
      InTier(cs, t, g) + if Tier(c, g) == t then [c] else []
  {
    assert (cs + [c])[..|cs|] == cs;
  }

  function CountTier(cs: seq<Connection>, t: nat, g: Geo): nat {
    if cs == [] then 0 else CountTier(cs[..|cs| - 1], t, g) + if Tier(cs[|cs| - 1], g) == t then 1 else 0
  }

  /** A connection comes behind exactly those of its group that came before it. */
  lemma {:induction false} GroupKeepsOrder(cs: seq<Connection>, t: nat, g: Geo, i: nat)
    requires i < |cs|
    ensures |InTier(cs, t, g)| == CountTier(cs, t, g)
    ensures Tier(cs[i], g) == t ==>
      CountTier(cs[..i], t, g) < CountTier(cs, t, g) && InTier(cs, t, g)[CountTier(cs[..i], t, g)] == cs[i]
  {
    var n := |cs| - 1;
    if i < n {
      GroupKeepsOrder(cs[..n], t, g, i);
      assert cs[..n][..i] == cs[..i];
    } else if n > 0 {
      GroupKeepsOrder(cs[..n], t, g, 0);
    }
  }

  lemma {:induction false} InTierLoadSorted(cs: seq<Connection>, t: nat, g: Geo)
    requires LoadSorted(cs)
    ensures LoadSorted(InTier(cs, t, g))
  {
    if cs != [] {
      var n := |cs| - 1;
      InTierLoadSorted(cs[..n], t, g);
      InTierMembers(cs[..n], t, g);
      forall c | c in InTier(cs[..n], t, g) ensures c.load <= cs[n].load {
        assert c in cs[..n];
      }
    }
  }

  lemma {:induction false} InTierCount(cs: seq<Connection>, t: nat, g: Geo, c: Connection)
    ensures multiset(InTier(cs, t, g))[c] == if Tier(c, g) == t then multiset(cs)[c] else 0
  {
    if cs != [] {
      var n := |cs| - 1;
      InTierCount(cs[..n], t, g, c);
      assert cs == cs[..n] + [cs[n]];
    }
  }

  /** Nothing is lost, added or duplicated. */
  lemma ByTierIsPermutation(cs: seq<Connection>, g: Geo)
    ensures multiset(ByTier(cs, g)) == multiset(cs)
  {
    forall c: Connection ensures multiset(ByTier(cs, g))[c] == multiset(cs)[c] {
      InTierCount(cs, 0, g, c);
      InTierCount(cs, 1, g, c);
      InTierCount(cs, 2, g, c);
      assert Tier(c, g) <= 2;
    }
  }

  /** Connections that come sorted by load leave sorted by group first and load second. */
  lemma ByTierIsSorted(cs: seq<Connection>, g: Geo, i: nat, j: nat)
    requires LoadSorted(cs) && i < j < |ByTier(cs, g)|
    ensures var r := ByTier(cs, g);
      var a, b := Tier(r[i], g), Tier(r[j], g);
      a < b || (a == b && r[i].load <= r[j].load)
  {
    var t0, t1, t2 := InTier(cs, 0, g), InTier(cs, 1, g),
                      InTier(cs, 2, g);
    var r := ByTier(cs, g);
    InTierLoadSorted(cs, 0, g);
    InTierLoadSorted(cs, 1, g);
    InTierLoadSorted(cs, 2, g);
    InTierMembers(cs, 0, g);
    InTierMembers(cs, 1, g);
    InTierMembers(cs, 2, g);
    forall k | 0 <= k < |r|
      ensures Tier(r[k], g) ==
        if k < |t0| then 0 else if k < |t0| + |t1| then 1 else 2
    {
      if k < |t0| {
        assert r[k] == t0[k] && t0[k] in t0;
      } else if k < |t0| + |t1| {
        assert r[k] == t1[k - |t0|] && t1[k - |t0|] in t1;
      } else {
        assert r[k] == t2[k - |t0| - |t1|] && t2[k - |t0| - |t1|] in t2;
      }
    }
  }

  /** The connections outside the initiator's country. */
  function Abroad(cs: seq<Connection>, g: Geo): (r: seq<Connection>)
    ensures forall c :: c in r ==> Tier(c, g) != 0
  {
    if cs == [] then []
    else Abroad(cs[..|cs| - 1], g) + if Tier(cs[|cs| - 1], g) != 0 then [cs[|cs| - 1]] else []
  }

  lemma {:induction false} InTierAbroad(cs: seq<Connection>, t: nat, g: Geo)
    requires t != 0
    ensures InTier(Abroad(cs, g), t, g) == InTier(cs, t, g)
  {
    if cs != [] {
      var n := |cs| - 1;
      InTierAbroad(cs[..n], t, g);
      InTierAppend(Abroad(cs[..n], g), cs[n], t, g);
      assert Abroad(cs[..n], g) + [] == Abroad(cs[..n], g);
    }
  }

  lemma {:induction false} AllInTier(cs: seq<Connection>, t: nat, u: nat, g: Geo)
    requires forall c :: c in cs ==> Tier(c, g) == t
    ensures InTier(cs, u, g) == if u == t then cs else []
  {
    if cs != [] {
      var n := |cs| - 1;
      AllInTier(cs[..n], t, u, g);
      assert cs == cs[..n] + [cs[n]];
    }
  }

  lemma UniformRest(rest: seq<Connection>, t: nat, g: Geo)
    requires forall c :: c in rest ==> Tier(c, g) == t
    requires t == 1 || t == 2
    ensures InTier(rest, 1, g) + InTier(rest, 2, g) == rest
  {
    AllInTier(rest, t, 1, g);
    AllInTier(rest, t, 2, g);
  }

  lemma SmallRest(rest: seq<Connection>, g: Geo)
    requires g.country !in g.world || |rest| <= 1
    requires forall c :: c in rest ==> Tier(c, g) != 0
    ensures InTier(rest, 1, g) + InTier(rest, 2, g) == rest
  {
    UniformRest(rest, if g.country in g.world && |rest| == 1 then Tier(rest[0], g) else 2, g);
  }

  /** Looking at continents changes nothing when there are none or at most one connection is left. */
  lemma ShortcutChangesNothing(cs: seq<Connection>, g: Geo)
    requires g.country !in g.world || |Abroad(cs, g)| <= 1
    ensures InTier(cs, 0, g) + Abroad(cs, g) == ByTier(cs, g)
  {
    var rest := Abroad(cs, g);
    InTierAbroad(cs, 1, g);
    InTierAbroad(cs, 2, g);
    SmallRest(rest, g);
    Regroup(InTier(cs, 0, g), InTier(rest, 1, g), InTier(rest, 2, g));
  }

  lemma Regroup(a: seq<Connection>, b: seq<Connection>, c: seq<Connection>)
    ensures a + b + c == a + (b + c)
  {
  }

  // ---- Choosing a connection ----

  function Clamp(bitrate: int, max: int): int {
    if bitrate <= 0 then max else if bitrate <= max then bitrate else max
  }

  const STREAM_TYPE_SCREEN := "screen"

  /** The configured limits for screen and other streams. */
  datatype Limits = Limits(maxStreamBitrate: int, maxScreenBitrate: int)

  function MaxBitrate(limits: Limits, streamType: string): int {
    if streamType == STREAM_TYPE_SCREEN then limits.maxScreenBitrate else limits.maxStreamBitrate
  }

  /** The bitrate is clamped again on every attempt, which makes no difference. */
  lemma ClampTwice(bitrate: int, max: int)
    ensures Clamp(Clamp(bitrate, max), max) == Clamp(bitrate, max)
  {
  }

  /** The bitrate asked for, if there is one within the limit of the stream type, and else that limit. */
  lemma ClampMeans(bitrate: int, limits: Limits, streamType: string)
    ensures MaxBitrate(limits, "screen") == limits.maxScreenBitrate
    ensures streamType != "screen" ==> MaxBitrate(limits, streamType) == limits.maxStreamBitrate
    ensures var max := MaxBitrate(limits, streamType);
      Clamp(bitrate, max) == if 0 < bitrate <= max then bitrate else max
  {
  }

  function Running(cs: seq<Connection>): nat {
    if cs == [] then 0 else Running(cs[..|cs| - 1]) + if cs[|cs| - 1].shutdown then 0 else 1
  }

  /** Every connection that is not shutting down is tried once, in order, with the same bitrate. */
  lemma {:induction false} AttemptsAre(cs: seq<Connection>, bitrate: int, i: nat)
    requires i < |cs|
    ensures |Attempts(cs, bitrate)| == Running(cs)
    ensures !cs[i].shutdown ==>
      Running(cs[..i]) < Running(cs) && Attempts(cs, bitrate)[Running(cs[..i])] == (cs[i].id, bitrate)
  {
    var n := |cs| - 1;
    if i < n {
      AttemptsAre(cs[..n], bitrate, i);
      assert cs[..n][..i] == cs[..i];
    } else if n > 0 {
      AttemptsAre(cs[..n], bitrate, 0);
    }
  }

  /** The attempts made on a prefix of the connections. */
  function Attempts(cs: seq<Connection>, bitrate: int): seq<(nat, int)> {
    if cs == [] then []
    else
      var c := cs[|cs| - 1];
      Attempts(cs[..|cs| - 1], bitrate) + if c.shutdown then [] else [(c.id, bitrate)]
  }
}

/** The placement code: loops over lists of connections and the proxy's connection list. */
module Placement {
  import opened Options
  import opened PlacementSpec

  method ContinentsOverlap(a: seq<string>, b: seq<string>) returns (overlap: bool)
    ensures overlap <==> Overlap(a, b)
    ensures overlap <==> exists x :: x in a && x in b
  {
    OverlapMeans(a, b);
    if |a| == 0 || |b| == 0 {
      return false;
    }
    for i := 0 to |a|
      invariant forall k, j :: 0 <= k < i && 0 <= j < |b| ==> a[k] != b[j]
    {
      for j := 0 to |b|
        invariant forall k :: 0 <= k < j ==> a[i] != b[k]
      {
        if a[i] == b[j] {
          return true;
        }
      }
    }
    return false;
  }

  /** Country, continent, rest: a stable partition. */
  method SortConnectionsForCountry(connections: seq<Connection>, g: Geo) returns (sorted: seq<Connection>)
    ensures sorted == ByTier(connections, g)
    ensures forall c :: Tier(c, g) == if c.country == g.country then 0 else if Near(c, g) then 1 else 2
  {
    forall c ensures Tier(c, g) == if c.country == g.country then 0 else if Near(c, g) then 1 else 2 {
      TierMeans(c, g);
    }
    var unprocessed: seq<Connection> := [];
    sorted := [];
    for i := 0 to |connections|
      invariant sorted == InTier(connections[..i], 0, g) && unprocessed == Abroad(connections[..i], g)
    {
      assert connections[..i + 1][..i] == connections[..i];
      if g.country == connections[i].country {
        sorted := sorted + [connections[i]];
      } else {
        unprocessed := unprocessed + [connections[i]];
      }
    }
    assert connections[..|connections|] == connections;
    if g.country in g.world && |unprocessed| > 1 {
      var near, remaining := SplitByContinent(unprocessed, g);
      InTierAbroad(connections, 1, g);
      InTierAbroad(connections, 2, g);
      sorted, unprocessed := sorted + near, remaining;
    } else {
      ShortcutChangesNothing(connections, g);
    }
    sorted := sorted + unprocessed;
  }

  method SplitByContinent(unprocessed: seq<Connection>, g: Geo)
    returns (near: seq<Connection>, remaining: seq<Connection>)
    requires g.country in g.world && forall c :: c in unprocessed ==> Tier(c, g) != 0
    ensures near == InTier(unprocessed, 1, g) && remaining == InTier(unprocessed, 2, g)
    ensures forall c :: c in unprocessed && Near(c, g) ==> c in near
    ensures forall c :: c in near ==> Near(c, g)
  {
    var own := g.world[g.country];
    var continents := own;
    assert own[..0] == [];
    for i := 0 to |own|
      invariant continents == own + Mapped(own[..i], g.mapping)
    {
      assert own[..i + 1][..i] == own[..i];
      if own[i] in g.mapping {
        continents := continents + g.mapping[own[i]];
      }
    }
    assert own[..|own|] == own;
    near, remaining := [], [];
    for i := 0 to |unprocessed|
      invariant near == InTier(unprocessed[..i], 1, g) && remaining == InTier(unprocessed[..i], 2, g)
    {
      var c := unprocessed[i];
      assert unprocessed[..i + 1][..i] == unprocessed[..i] && c in unprocessed;
      var overlap := false;
      if IsValidCountry(c.country) {
        overlap := ContinentsOverlap(continents, if c.country in g.world then g.world[c.country] else []);
      }
      if overlap {
        near := near + [c];
      } else {
        remaining := remaining + [c];
      }
    }
    assert unprocessed[..|unprocessed|] == unprocessed;
    InTierMembers(unprocessed, 1, g);
    forall c | c in unprocessed ensures Tier(c, g) == 1 <==> Near(c, g) {
      TierMeans(c, g);
    }
  }

  /** The first connection that is not shutting down and accepts, with the attempts made up to it. */
  method ChooseConnection(connections: seq<Connection>, accepts: set<nat>, streamType: string, bitrate: int,
                          limits: Limits)
    returns (chosen: Option<nat>, attempts: seq<(nat, int)>)
    ensures forall a :: a in attempts ==>
      var max := if streamType == "screen" then limits.maxScreenBitrate else limits.maxStreamBitrate;
      a.1 == if 0 < bitrate <= max then bitrate else max
    ensures chosen.None? ==>
      && (forall i :: 0 <= i < |connections| ==> connections[i].shutdown || connections[i].id !in accepts)
      && attempts == Attempts(connections, Clamp(bitrate, MaxBitrate(limits, streamType)))
    ensures chosen.Some? ==>
      && chosen.value < |connections|
      && !connections[chosen.value].shutdown && connections[chosen.value].id in accepts
      && (forall i :: 0 <= i < chosen.value ==> connections[i].shutdown || connections[i].id !in accepts)
      && attempts == Attempts(connections[..chosen.value + 1], Clamp(bitrate, MaxBitrate(limits, streamType)))
  {
    ClampMeans(bitrate, limits, streamType);
    ghost var clamped := Clamp(bitrate, MaxBitrate(limits, streamType));
    attempts := [];
    var rate := bitrate;
    for i := 0 to |connections|
      invariant forall k :: 0 <= k < i ==> connections[k].shutdown || connections[k].id !in accepts
      invariant rate == bitrate || rate == clamped
      invariant attempts == Attempts(connections[..i], clamped)
      invariant forall a :: a in attempts ==> a.1 == clamped
    {
      assert connections[..i + 1][..i] == connections[..i];
      if connections[i].shutdown {
        continue;
      }
      var max := if streamType == STREAM_TYPE_SCREEN then limits.maxScreenBitrate else limits.maxStreamBitrate;
      ClampTwice(bitrate, max);
      rate := if rate <= 0 then max else if rate <= max then rate else max;
      attempts := attempts + [(connections[i].id, rate)];
      if connections[i].id in accepts {
        return Some(i), attempts;
      }
    }
    assert connections[..|connections|] == connections;
    return None, attempts;
  }

  const CONNECTION_SORT_REQUESTS := 10
  const CONNECTION_SORT_INTERVAL := 1_000_000_000 // nanoseconds

  class ProxyConnections {
    var connections: seq<Connection>
    var connRequests: nat
    var nextSort: int

    constructor (connections: seq<Connection>)
      ensures this.connections == connections && connRequests == 0 && nextSort == 0
    {
      this.connections, connRequests, nextSort := connections, 0, 0;
    }

    /**
     * Sorts by load every tenth request or once per second, and by country for a known initiator.
     * `resorted` is what the library's sort makes of the list that the request has read, and `meanwhile`
     * what other threads have made of the list by the time the request stores it.
     */
    method GetSortedConnections(now: int, initiator: Option<Geo>, resorted: seq<Connection>,
                                meanwhile: seq<Connection>)
      returns (result: seq<Connection>)
      requires multiset(resorted) == multiset(connections) && LoadSorted(resorted)
      modifies this
      ensures multiset(result) == old(multiset(connections))
      ensures connRequests == old(connRequests) + (if |old(connections)| < 2 then 0 else 1)
      ensures var sorts :=
          |old(connections)| >= 2 && ((old(connRequests) + 1) % 10 == 0 || old(nextSort) <= now);
        && connections == (if sorts then resorted else meanwhile)
        && nextSort == (if sorts then now + 1_000_000_000 else old(nextSort))
        && var list := if sorts then resorted else old(connections);
           result == if |list| >= 2 && initiator.Some? && IsValidCountry(initiator.value.country)
                     then ByTier(list, initiator.value) else list
    {
      var list := connections;
      connections := meanwhile;
      SameSize(resorted, list);
      result := list;
      if |list| < 2 {
        return;
      }
      connRequests := connRequests + 1;
      if connRequests % CONNECTION_SORT_REQUESTS == 0 || nextSort <= now {
        nextSort := now + CONNECTION_SORT_INTERVAL;
        connections := resorted;
        result := resorted;
      }
      if initiator.Some? && IsValidCountry(initiator.value.country) {
        ByTierIsPermutation(result, initiator.value);
        result := SortConnectionsForCountry(result, initiator.value);
      }
    }
  }

  lemma SameSize(a: seq<Connection>, b: seq<Connection>)
    requires multiset(a) == multiset(b)
    ensures |a| == |b|
  {
    assert |multiset(a)| == |a| && |multiset(b)| == |b|;
  }
}
