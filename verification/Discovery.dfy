/**
 * The registry of proxies found in etcd: which key announced which address (`keyInfos`), which key
 * owns which address (`urlToKey`), and which addresses have connections (`connectionsMap`).
 * Whether a new connection can be started is a parameter of each put.
 */
module DiscoverySpec {
  import opened Options

  type Key = string
  type Address = string

  /** A stored value needs an address, which is made to end in a slash. */
  function CheckValid(address: string): Option<Address> {
    if address == "" then None
    else if address[|address| - 1] != '/' then Some(address + "/")
    else Some(address)
  }

  /** Only an empty address is invalid; any other is completed to end in one slash more at most. */
  lemma CheckValidMeans(address: string)
    ensures CheckValid(address).None? <==> |address| == 0
    ensures |address| > 0 ==>
      var a := CheckValid(address).value;
      && |a| > 0 && a[|a| - 1] == '/'
      && (if address[|address| - 1] == '/' then a == address else |a| == |address| + 1 && a[..|address|] == address)
  {
  }

  datatype State = State(keyInfos: map<Key, Address>, urlToKey: map<Address, Key>, connected: set<Address>)

  datatype Step =
    | Put(key: Key, address: Address, starts: bool)
    | PutInvalid(key: Key)
    | Delete(key: Key)
    | ConnectionGone(address: Address)

  function RemoveKey(s: State, key: Key): State {
    if key !in s.keyInfos then s
    else s.(keyInfos := s.keyInfos - {key}, urlToKey := s.urlToKey - {s.keyInfos[key]})
  }

  function Claim(s: State, key: Key, address: Address, starts: bool): State {
    if address in s.urlToKey && s.urlToKey[address] != key then s
    else if address in s.connected || starts then
      State(s.keyInfos[key := address], s.urlToKey[address := key], s.connected + {address})
    else s
  }

  function Add(s: State, key: Key, address: Address, starts: bool): State {
    var moved := key in s.keyInfos && s.keyInfos[key] != address;
    Claim(if moved then RemoveKey(s, key) else s, key, address, starts)
  }

  function Next(s: State, step: Step): State {
    match step
    case Put(key, address, starts) => Add(s, key, address, starts)
    case PutInvalid(_) => s
    case Delete(key) => RemoveKey(s, key)
    case ConnectionGone(address) => s.(connected := s.connected - {address})
  }

  const EMPTY := State(map[], map[], {})

  function Run(steps: seq<Step>): State {
    if steps == [] then EMPTY else Next(Run(steps[..|steps| - 1]), steps[|steps| - 1])
  }

  // ---- The two maps are inverse ----

  ghost predicate Inverse(s: State) {
    && (forall k :: k in s.keyInfos ==> s.keyInfos[k] in s.urlToKey && s.urlToKey[s.keyInfos[k]] == k)
    && (forall a :: a in s.urlToKey ==> s.urlToKey[a] in s.keyInfos && s.keyInfos[s.urlToKey[a]] == a)
  }

  lemma RemoveKeepsInverse(s: State, key: Key)
    requires Inverse(s)
    ensures Inverse(RemoveKey(s, key))
  {
  }

  lemma ClaimKeepsInverse(s: State, key: Key, address: Address, starts: bool)
    requires Inverse(s) && (key in s.keyInfos ==> s.keyInfos[key] == address)
    ensures Inverse(Claim(s, key, address, starts))
  {
  }

  lemma {:induction false} MapsAreInverse(steps: seq<Step>)
    ensures Inverse(Run(steps))
  {
    if steps != [] {
      var s, step := Run(steps[..|steps| - 1]), steps[|steps| - 1];
      MapsAreInverse(steps[..|steps| - 1]);
      match step {
        case Put(key, address, starts) =>
          var moved := key in s.keyInfos && s.keyInfos[key] != address;
          RemoveKeepsInverse(s, key);
          ClaimKeepsInverse(if moved then RemoveKey(s, key) else s, key, address, starts);
        case PutInvalid(_) =>
        case Delete(key) => RemoveKeepsInverse(s, key);
        case ConnectionGone(_) =>
      }
    }
  }

  // ---- Seen from one address, the registry is a lease ----

  /** Who owns one address, and whether a connection to it exists. */
  datatype Lease = Lease(owner: Option<Key>, connected: bool)

  /** Only the owner gives the address up; only a free address is given out. */
  function Transfer(l: Lease, address: Address, step: Step): Lease {
    match step
    case Put(key, a, starts) =>
      if a != address then (if l.owner == Some(key) then l.(owner := None) else l)
      else if l.owner != None && l.owner != Some(key) then l
      else if l.connected || starts then Lease(Some(key), true)
      else l
    case PutInvalid(_) => l
    case Delete(key) => if l.owner == Some(key) then l.(owner := None) else l
    case ConnectionGone(a) => if a == address then l.(connected := false) else l
  }

  function LeaseOf(address: Address, steps: seq<Step>): Lease {
    if steps == [] then Lease(None, false)
    else Transfer(LeaseOf(address, steps[..|steps| - 1]), address, steps[|steps| - 1])
  }

  function LeaseIn(s: State, address: Address): Lease {
    Lease(if address in s.urlToKey then Some(s.urlToKey[address]) else None, address in s.connected)
  }

  lemma StepTransfers(s: State, step: Step, address: Address)
    requires Inverse(s)
    ensures LeaseIn(Next(s, step), address) == Transfer(LeaseIn(s, address), address, step)
  {
  }

  /** What happens to one address depends on the steps alone, never on other addresses' owners. */
  lemma {:induction false} RegistryIsLeases(steps: seq<Step>, address: Address)
    ensures LeaseIn(Run(steps), address) == LeaseOf(address, steps)
  {
    if steps != [] {
      var n := |steps| - 1;
      MapsAreInverse(steps[..n]);
      RegistryIsLeases(steps[..n], address);
      StepTransfers(Run(steps[..n]), steps[n], address);
    }
  }

  /** The owner moves to another address or is deleted. */
  predicate Releases(step: Step, key: Key, address: Address) {
    || step == Delete(key)
    || (step.Put? && step.key == key && step.address != address)
  }

  lemma {:induction false} LeaseIsKept(steps: seq<Step>, n: nat, key: Key, address: Address)
    requires n <= |steps| && LeaseOf(address, steps[..n]).owner == Some(key)
    requires forall i :: n <= i < |steps| ==> !Releases(steps[i], key, address)
    ensures LeaseOf(address, steps).owner == Some(key)
  {
    if n == |steps| {
      assert steps[..n] == steps;
    } else {
      assert steps[..|steps| - 1][..n] == steps[..n];
      LeaseIsKept(steps[..|steps| - 1], n, key, address);
    }
  }

  /** An owner keeps its address, whatever others claim, until it moves or is deleted. */
  lemma AddressIsNeverTaken(steps: seq<Step>, n: nat, key: Key, address: Address)
    requires n <= |steps|
    requires address in Run(steps[..n]).urlToKey && Run(steps[..n]).urlToKey[address] == key
    requires forall i :: n <= i < |steps| ==> !Releases(steps[i], key, address)
    ensures address in Run(steps).urlToKey && Run(steps).urlToKey[address] == key
  {
    RegistryIsLeases(steps[..n], address);
    LeaseIsKept(steps, n, key, address);
    RegistryIsLeases(steps, address);
  }

  /** An address changes hands only by way of being free, and a free one only by being claimed. */
  lemma OwnerChangesOnlyByRelease(steps: seq<Step>, step: Step, address: Address)
    ensures var was, now := LeaseIn(Run(steps), address).owner, LeaseIn(Run(steps + [step]), address).owner;
      was != now ==>
        || (was.Some? && now == None && Releases(step, was.value, address))
        || (was == None && step.Put? && step.address == address && now == Some(step.key))
  {
    MapsAreInverse(steps);
    assert (steps + [step])[..|steps|] == steps;
    StepTransfers(Run(steps), step, address);
  }

  // ---- What is registered, compared with what is stored in etcd ----

  predicate Touches(step: Step, key: Key) {
    (step.Put? || step.Delete?) && step.key == key
  }

  /** Whether a put of `address` under `key` ends up registered. */
  predicate Grants(l: Lease, key: Key, starts: bool) {
    l.owner == Some(key) || (l.owner == None && (l.connected || starts))
  }

  lemma UntouchedKeyStays(s: State, step: Step, key: Key)
    requires Inverse(s) && !Touches(step, key)
    ensures key in Next(s, step).keyInfos <==> key in s.keyInfos
    ensures key in s.keyInfos ==> Next(s, step).keyInfos[key] == s.keyInfos[key]
  {
  }

  lemma PutRegistersIffGranted(s: State, key: Key, address: Address, starts: bool)
    requires Inverse(s)
    ensures var after := Add(s, key, address, starts);
      && (key in after.keyInfos <==> Grants(LeaseIn(s, address), key, starts))
      && (key in after.keyInfos ==> after.keyInfos[key] == address)
  {
  }

  /**
   * The last valid value stored under a key is registered if and only if its address was free or the
   * key's own when it arrived (and a connection could be had); nothing later changes that.
   */
  lemma {:induction false} RegisteredIffGranted(steps: seq<Step>, n: nat)
    requires n < |steps| && steps[n].Put?
    requires forall i :: n < i < |steps| ==> !Touches(steps[i], steps[n].key)
    ensures var key := steps[n].key;
      && (key in Run(steps).keyInfos <==>
          Grants(LeaseOf(steps[n].address, steps[..n]), key, steps[n].starts))
      && (key in Run(steps).keyInfos ==> Run(steps).keyInfos[key] == steps[n].address)
  {
    var last := |steps| - 1;
    MapsAreInverse(steps[..last]);
    if n == last {
      PutRegistersIffGranted(Run(steps[..n]), steps[n].key, steps[n].address, steps[n].starts);
      RegistryIsLeases(steps[..n], steps[n].address);
    } else {
      assert steps[..last][..n] == steps[..n];
      RegisteredIffGranted(steps[..last], n);
      UntouchedKeyStays(Run(steps[..last]), steps[last], steps[n].key);
    }
  }

  /** Nothing is registered for a key that was never stored or whose last event was a delete. */
  lemma {:induction false} RegisteredWasStored(steps: seq<Step>, key: Key)
    ensures key in Run(steps).keyInfos ==>
      exists n :: 0 <= n < |steps| && steps[n].Put? && steps[n].key == key &&
        steps[n].address == Run(steps).keyInfos[key] &&
        forall i :: n < i < |steps| ==> !Touches(steps[i], key)
  {
    if steps != [] && key in Run(steps).keyInfos {
      var last := |steps| - 1;
      MapsAreInverse(steps[..last]);
      if Touches(steps[last], key) {
        PutOnlyRegisters(steps, key);
      } else {
        UntouchedKeyStays(Run(steps[..last]), steps[last], key);
        RegisteredWasStored(steps[..last], key);
        var n :| 0 <= n < last && steps[..last][n].Put? && steps[..last][n].key == key &&
          steps[..last][n].address == Run(steps).keyInfos[key] &&
          forall i :: n < i < last ==> !Touches(steps[..last][i], key);
        forall i | n < i < |steps| ensures !Touches(steps[i], key) {
          assert i < last ==> steps[i] == steps[..last][i];
        }
        assert steps[n] == steps[..last][n];
      }
    }
  }

  lemma PutOnlyRegisters(steps: seq<Step>, key: Key)
    requires steps != [] && Touches(steps[|steps| - 1], key) && key in Run(steps).keyInfos
    requires Inverse(Run(steps[..|steps| - 1]))
    ensures var step := steps[|steps| - 1]; step.Put? && step.address == Run(steps).keyInfos[key]
  {
    var step := steps[|steps| - 1];
    if step.Put? {
      PutRegistersIffGranted(Run(steps[..|steps| - 1]), key, step.address, step.starts);
    }
  }

  /**
   * A claim that was ignored is not taken up when the owner goes away: the key stays stored in etcd,
   * its address is free, and still nothing is registered.
   */
  lemma IgnoredClaimIsNotTakenUp(a: Key, b: Key, address: Address)
    requires a != b
    ensures Run([Put(a, address, true), Put(b, address, true), Delete(a)]) == State(map[], map[], {address})
  {
    var p, q, d := Put(a, address, true), Put(b, address, true), Delete(a);
    assert [p][..0] == [] && [p, q][..1] == [p] && [p, q, d][..2] == [p, q];
    assert Run([p]) == State(map[a := address], map[address := a], {address});
    assert Run([p, q]) == Run([p]);
  }
}

/** The registry as the proxy client keeps it. */
module Discovery {
  import opened Options
  import S = DiscoverySpec

  class ProxyDiscovery {
    var keyInfos: map<S.Key, S.Address>
    var urlToKey: map<S.Address, S.Key>
    var connectionsMap: set<S.Address>

    ghost function View(): S.State
      reads this
    {
      S.State(keyInfos, urlToKey, connectionsMap)
    }

    constructor ()
      ensures View() == S.EMPTY
    {
      keyInfos, urlToKey, connectionsMap := map[], map[], {};
    }

    /** `info` is None when the stored value cannot be decoded. */
    method AddEtcdProxy(key: S.Key, info: Option<string>, starts: bool)
      modifies this
      ensures View() == S.Next(old(View()),
        if info.None? || S.CheckValid(info.value).None? then S.PutInvalid(key)
        else S.Put(key, S.CheckValid(info.value).value, starts))
    {
      if info.None? || S.CheckValid(info.value).None? {
        return;
      }
      var address := S.CheckValid(info.value).value;
      if key in keyInfos && address != keyInfos[key] {
        RemoveEtcdProxyLocked(key);
      }
      if address in urlToKey && urlToKey[address] != key {
        return;
      }
      if address in connectionsMap {
        keyInfos := keyInfos[key := address];
        urlToKey := urlToKey[address := key];
        assert connectionsMap + {address} == connectionsMap;
      } else {
        if !starts {
          return;
        }
        keyInfos := keyInfos[key := address];
        urlToKey := urlToKey[address := key];
        connectionsMap := connectionsMap + {address};
      }
    }

    method RemoveEtcdProxy(key: S.Key)
      modifies this
      ensures View() == S.Next(old(View()), S.Delete(key))
    {
      RemoveEtcdProxyLocked(key);
    }

    method RemoveEtcdProxyLocked(key: S.Key)
      modifies this
      ensures View() == S.RemoveKey(old(View()), key)
    {
      if key !in keyInfos {
        return;
      }
      var address := keyInfos[key];
      keyInfos := keyInfos - {key};
      urlToKey := urlToKey - {address};
    }

    /** The last connection to an address was removed. */
    method RemoveConnection(address: S.Address)
      modifies this
      ensures View() == S.Next(old(View()), S.ConnectionGone(address))
    {
      connectionsMap := connectionsMap - {address};
    }
  }
}
