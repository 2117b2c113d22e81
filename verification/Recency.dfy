/**
 * What a least-recently-used cache holds, as a pure sequence of entries with the
 * most recently used one first, and a reference that does not mention the cache:
 * a key is held exactly when it was touched and fewer than `size` other keys were
 * touched after its last touch.
 */
module Recency {
  import opened Options
  import opened Sets

  datatype Entry<+V> = Entry(key: string, value: V)

  /** The position of `key`, or the length of the sequence when it is absent. */
  function Find<V>(r: seq<Entry<V>>, key: string): (i: nat)
    ensures i <= |r|
    ensures i < |r| ==> r[i].key == key
    ensures forall j :: 0 <= j < i ==> r[j].key != key
  {
    if r == [] then 0 else if r[0].key == key then 0 else 1 + Find(r[1..], key)
  }

  /** A sequence without its element at position i. */
  function Cut<T>(s: seq<T>, i: nat): (r: seq<T>)
    requires i < |s|
    ensures |r| == |s| - 1
    ensures forall j :: 0 <= j < |r| ==> r[j] == s[if j < i then j else j + 1]
  {
    s[..i] + s[i + 1..]
  }

  function Without<V>(r: seq<Entry<V>>, key: string): seq<Entry<V>> {
    var i := Find(r, key);
    if i < |r| then Cut(r, i) else r
  }

  function Lookup<V>(r: seq<Entry<V>>, key: string): Option<V> {
    var i := Find(r, key);
    if i < |r| then Some(r[i].value) else None
  }

  function Trim<T>(r: seq<T>, size: int): seq<T> {
    if size > 0 && |r| > size then r[..size] else r
  }

  /** A size of zero or less means that the cache is not limited. */
  function Set<V>(r: seq<Entry<V>>, size: int, key: string, value: V): seq<Entry<V>> {
    if Find(r, key) < |r| then [Entry(key, value)] + Without(r, key)
    else
      var pushed := [Entry(key, value)] + r;
      if size > 0 && |pushed| > size then RemoveOldest(pushed) else pushed
  }

  function Get<V>(r: seq<Entry<V>>, key: string): seq<Entry<V>> {
    var i := Find(r, key);
    if i < |r| then [r[i]] + Without(r, key) else r
  }

  function RemoveOldest<V>(r: seq<Entry<V>>): seq<Entry<V>> {
    if r == [] then [] else r[..|r| - 1]
  }

  // ---- Traces of Set and Get ----

  datatype Op<+V> = OpSet(key: string, value: V) | OpGet(key: string)

  function Apply<V>(r: seq<Entry<V>>, size: int, op: Op<V>): seq<Entry<V>> {
    match op
    case OpSet(k, v) => Set(r, size, k, v)
    case OpGet(k) => Get(r, k)
  }

  function Run<V>(ops: seq<Op<V>>, size: int): seq<Entry<V>> {
    if ops == [] then [] else Apply(Run(ops[..|ops| - 1], size), size, ops[|ops| - 1])
  }

  // ---- The reference ----

  /** The keys touched after the last touch of `key`. */
  function TouchedSince(log: seq<string>, key: string): set<string> {
    if log == [] || log[|log| - 1] == key then {}
    else TouchedSince(log[..|log| - 1], key) + {log[|log| - 1]}
  }

  predicate Held(log: seq<string>, size: int, key: string) {
    key in log && (size <= 0 || |TouchedSince(log, key)| < size)
  }

  /** The touches of a trace: every Set touches its key, a Get only a key that is held. */
  function Touches<V>(ops: seq<Op<V>>, size: int): seq<string> {
    if ops == [] then []
    else
      var log := Touches(ops[..|ops| - 1], size);
      match ops[|ops| - 1]
      case OpSet(k, _) => log + [k]
      case OpGet(k) => if Held(log, size, k) then log + [k] else log
  }

  /** The value of the last Set of `key` in a trace. */
  function LastSet<V>(ops: seq<Op<V>>, key: string): Option<V> {
    if ops == [] then None
    else
      match ops[|ops| - 1]
      case OpSet(k, v) => if k == key then Some(v) else LastSet(ops[..|ops| - 1], key)
      case OpGet(_) => LastSet(ops[..|ops| - 1], key)
  }

  // ---- The run and the reference agree, first on keys alone ----

  function Keys<V>(r: seq<Entry<V>>): (ks: seq<string>)
    ensures |ks| == |r| && forall i :: 0 <= i < |r| ==> ks[i] == r[i].key
  {
    seq(|r|, i requires 0 <= i < |r| => r[i].key)
  }

  function Elems(s: seq<string>): set<string> {
    set k | k in s
  }

  ghost predicate Distinct<T>(s: seq<T>) {
    forall i, j :: 0 <= i < j < |s| ==> s[i] != s[j]
  }

  /** The key at position i was last touched before exactly the i keys in front of it. */
  ghost predicate InOrder(ks: seq<string>, log: seq<string>) {
    forall i :: 0 <= i < |ks| ==> ks[i] in log && TouchedSince(log, ks[i]) == Elems(ks[..i])
  }

  /** Every other touched key was last touched before all the keys of a full cache. */
  ghost predicate OthersOlder(ks: seq<string>, log: seq<string>, size: int) {
    forall k :: k in log && k !in ks ==> size > 0 && |ks| == size && Elems(ks) <= TouchedSince(log, k)
  }

  ghost predicate Agree(ks: seq<string>, log: seq<string>, size: int) {
    && Distinct(ks)
    && (size > 0 ==> |ks| <= size)
    && InOrder(ks, log)
    && OthersOlder(ks, log, size)
  }

  function Moved(ks: seq<string>, i: nat): seq<string>
    requires i < |ks|
  {
    [ks[i]] + Cut(ks, i)
  }

  lemma TouchedSinceAppend(log: seq<string>, k: string, x: string)
    ensures TouchedSince(log + [k], x) == if x == k then {} else TouchedSince(log, x) + {k}
  {
    assert (log + [k])[..|log|] == log;
  }

  lemma MovedPrefix(ks: seq<string>, i: nat, j: nat)
    requires i < |ks| && 0 < j < |ks|
    ensures j <= i ==> Moved(ks, i)[j] == ks[j - 1] && Elems(Moved(ks, i)[..j]) == Elems(ks[..j - 1]) + {ks[i]}
    ensures i < j ==> Moved(ks, i)[j] == ks[j] && Elems(Moved(ks, i)[..j]) == Elems(ks[..j])
  {
    if j <= i {
      assert Moved(ks, i)[..j] == [ks[i]] + ks[..j - 1];
    } else {
      assert Moved(ks, i)[..j] == [ks[i]] + (ks[..i] + ks[i + 1..j]);
      assert ks[..j] == ks[..i] + [ks[i]] + ks[i + 1..j];
    }
  }

  lemma MovedElems(ks: seq<string>, i: nat)
    requires i < |ks|
    ensures Elems(Moved(ks, i)) == Elems(ks)
    ensures forall k :: k in Moved(ks, i) <==> k in ks
  {
    assert ks == ks[..i] + [ks[i]] + ks[i + 1..];
  }

  lemma TouchHitInOrder(ks: seq<string>, log: seq<string>, i: nat)
    requires Distinct(ks) && InOrder(ks, log) && i < |ks|
    ensures InOrder(Moved(ks, i), log + [ks[i]])
  {
    var k, ks' := ks[i], Moved(ks, i);
    forall j | 0 <= j < |ks'|
      ensures ks'[j] in log + [k] && TouchedSince(log + [k], ks'[j]) == Elems(ks'[..j])
    {
      TouchedSinceAppend(log, k, ks'[j]);
      if 0 < j { MovedPrefix(ks, i, j); }
    }
  }

  lemma MovedDistinct(ks: seq<string>, i: nat)
    requires Distinct(ks) && i < |ks|
    ensures Distinct(Moved(ks, i))
  {
    var ks' := Moved(ks, i);
    forall a, b | 0 <= a < b < |ks'| ensures ks'[a] != ks'[b] {
      assert ks'[b] == ks[if b <= i then b - 1 else b];
      assert a > 0 ==> ks'[a] == ks[if a <= i then a - 1 else a];
    }
  }

  /** Moving a held key to the front. */
  lemma TouchHit(ks: seq<string>, log: seq<string>, size: int, i: nat)
    requires Agree(ks, log, size) && i < |ks|
    ensures Agree(Moved(ks, i), log + [ks[i]], size)
  {
    var k, ks' := ks[i], Moved(ks, i);
    MovedElems(ks, i);
    MovedDistinct(ks, i);
    TouchHitInOrder(ks, log, i);
    forall x | x in log + [k] && x !in ks'
      ensures size > 0 && |ks'| == size && Elems(ks') <= TouchedSince(log + [k], x)
    {
      TouchedSinceAppend(log, k, x);
    }
  }

  /** Pushing a key that is not held, and evicting the last one when there are too many. */
  lemma TouchMiss(ks: seq<string>, log: seq<string>, size: int, k: string)
    requires Agree(ks, log, size) && k !in ks
    ensures Agree(Trim([k] + ks, size), log + [k], size)
  {
    var ks' := Trim([k] + ks, size);
    var kept := |ks'| - 1;
    assert ks' == [k] + ks[..kept];
    assert InOrder(ks', log + [k]) by {
      forall j | 0 <= j < |ks'|
        ensures ks'[j] in log + [k] && TouchedSince(log + [k], ks'[j]) == Elems(ks'[..j])
      {
        TouchedSinceAppend(log, k, ks'[j]);
        if 0 < j { assert ks'[..j] == [k] + ks[..j - 1]; }
      }
    }
    assert OthersOlder(ks', log + [k], size) by {
      forall x | x in log + [k] && x !in ks'
        ensures size > 0 && |ks'| == size && Elems(ks') <= TouchedSince(log + [k], x)
      {
        TouchedSinceAppend(log, k, x);
        if x in ks { assert x == ks[kept]; }
      }
    }
  }

  lemma {:induction false} ElemsSize(s: seq<string>)
    requires Distinct(s)
    ensures |Elems(s)| == |s|
  {
    if s != [] {
      var n := |s| - 1;
      ElemsSize(s[..n]);
      assert Elems(s) == Elems(s[..n]) + {s[n]};
    }
  }

  lemma AgreeHeld(ks: seq<string>, log: seq<string>, size: int, k: string)
    requires Agree(ks, log, size)
    ensures Held(log, size, k) <==> k in ks
  {
    if k in ks {
      var i :| 0 <= i < |ks| && ks[i] == k;
      ElemsSize(ks[..i]);
    } else if k in log {
      ElemsSize(ks);
      SubsetSize(Elems(ks), TouchedSince(log, k));
    }
  }

  lemma KeysOfMoved<V>(r: seq<Entry<V>>, i: nat, e: Entry<V>)
    requires i < |r| && e.key == r[i].key
    ensures Keys([e] + Cut(r, i)) == Moved(Keys(r), i)
  {
    var a, b := Keys([e] + Cut(r, i)), Moved(Keys(r), i);
    forall j | 0 <= j < |a| ensures a[j] == b[j] {
      if 0 < j <= i { assert b[j] == Keys(r)[j - 1]; }
    }
  }

  lemma KeysOfSet<V>(r: seq<Entry<V>>, size: int, k: string, v: V)
    requires size > 0 ==> |r| <= size
    ensures var i := Find(r, k);
      Keys(Set(r, size, k, v)) == if i < |r| then Moved(Keys(r), i) else Trim([k] + Keys(r), size)
  {
    var i := Find(r, k);
    if i < |r| {
      KeysOfMoved(r, i, Entry(k, v));
    } else {
      assert Keys([Entry(k, v)] + r) == [k] + Keys(r);
    }
  }

  lemma KeysOfGet<V>(r: seq<Entry<V>>, k: string)
    ensures var i := Find(r, k);
      Keys(Get(r, k)) == if i < |r| then Moved(Keys(r), i) else Keys(r)
  {
    var i := Find(r, k);
    if i < |r| { KeysOfMoved(r, i, r[i]); }
  }

  lemma FindInKeys<V>(r: seq<Entry<V>>, k: string)
    ensures k in Keys(r) <==> Find(r, k) < |r|
    ensures Find(r, k) < |r| ==> Keys(r)[Find(r, k)] == k
  {
    if k in Keys(r) {
      var i :| 0 <= i < |r| && Keys(r)[i] == k;
    }
  }

  lemma {:induction false} RunAgrees<V>(ops: seq<Op<V>>, size: int)
    ensures Agree(Keys(Run(ops, size)), Touches(ops, size), size)
  {
    if ops != [] {
      var before, op := ops[..|ops| - 1], ops[|ops| - 1];
      RunAgrees(before, size);
      StepAgrees(Run(before, size), Touches(before, size), size, op);
    }
  }

  lemma StepAgrees<V>(r: seq<Entry<V>>, log: seq<string>, size: int, op: Op<V>)
    requires Agree(Keys(r), log, size)
    ensures Agree(Keys(Apply(r, size, op)), if op.OpSet? || Held(log, size, op.key) then log + [op.key] else log, size)
  {
    var k := op.key;
    AgreeHeld(Keys(r), log, size, k);
    FindInKeys(r, k);
    match op {
      case OpSet(_, v) => KeysOfSet(r, size, k, v);
      case OpGet(_) => KeysOfGet(r, k);
    }
    if k in Keys(r) {
      TouchHit(Keys(r), log, size, Find(r, k));
    } else if op.OpSet? {
      TouchMiss(Keys(r), log, size, k);
    }
  }

  /**
   * After any trace of Sets and Gets the contents are exactly the keys that were touched
   * and since whose last touch fewer than `size` distinct other keys were touched.
   */
  lemma ContentsAreMostRecentlyTouched<V>(ops: seq<Op<V>>, size: int, k: string)
    ensures Lookup(Run(ops, size), k).Some? <==> Held(Touches(ops, size), size, k)
  {
    RunAgrees(ops, size);
    AgreeHeld(Keys(Run(ops, size)), Touches(ops, size), size, k);
    FindInKeys(Run(ops, size), k);
  }

  // ---- Values ----

  lemma LookupPush<V>(e: Entry<V>, r: seq<Entry<V>>, k: string)
    ensures Lookup([e] + r, k) == if e.key == k then Some(e.value) else Lookup(r, k)
  {
    assert ([e] + r)[1..] == r;
  }

  lemma LookupWithout<V>(r: seq<Entry<V>>, gone: string, k: string)
    requires k != gone
    ensures Lookup(Without(r, gone), k) == Lookup(r, k)
  {
    var i, j := Find(r, gone), Find(r, k);
    if i < |r| {
      FindIs(Cut(r, i), k, if j < i then j else j - 1);
    }
  }

  /** A key has one entry at most. */
  ghost predicate OneEach<V>(r: seq<Entry<V>>) {
    Distinct(Keys(r))
  }

  lemma OneEachIs<V>(r: seq<Entry<V>>)
    ensures OneEach(r) <==> forall i, j :: 0 <= i < j < |r| ==> r[i].key != r[j].key
  {
    if OneEach(r) {
      forall i, j | 0 <= i < j < |r| ensures r[i].key != r[j].key {
        assert Keys(r)[i] != Keys(r)[j];
      }
    }
  }

  /** As a key has one entry only, it is gone once that is taken out. */
  lemma WithoutForgets<V>(r: seq<Entry<V>>, k: string)
    requires OneEach(r)
    ensures Lookup(Without(r, k), k) == None
    ensures forall j :: 0 <= j < |Without(r, k)| ==> Without(r, k)[j].key != k
  {
    OneEachIs(r);
    var i, rest := Find(r, k), Without(r, k);
    forall j | 0 <= j < |rest| && i < |r| ensures rest[j].key != k {
      assert r[if j < i then j else j + 1].key != r[i].key;
    }
  }

  lemma WithoutKeepsOneEach<V>(r: seq<Entry<V>>, k: string)
    requires OneEach(r)
    ensures OneEach(Without(r, k))
  {
    OneEachIs(r);
    OneEachIs(Without(r, k));
  }

  lemma PushKeepsOneEach<V>(e: Entry<V>, r: seq<Entry<V>>)
    requires OneEach(r) && forall i :: 0 <= i < |r| ==> r[i].key != e.key
    ensures OneEach([e] + r)
  {
    var p := [e] + r;
    OneEachIs(r);
    OneEachIs(p);
    forall a, b | 0 <= a < b < |p| ensures p[a].key != p[b].key {
      assert p[b] == r[b - 1];
      if a > 0 { assert p[a] == r[a - 1]; }
    }
  }

  /** A get and a set keep one entry for each key. */
  lemma ApplyKeepsOneEach<V>(r: seq<Entry<V>>, size: int, op: Op<V>)
    requires OneEach(r)
    ensures OneEach(Apply(r, size, op))
  {
    var i, rest := Find(r, op.key), Without(r, op.key);
    OneEachIs(Apply(r, size, op));
    if i < |r| {
      WithoutKeepsOneEach(r, op.key);
      WithoutForgets(r, op.key);
      PushKeepsOneEach(if op.OpSet? then Entry(op.key, op.value) else r[i], rest);
    } else if op.OpSet? {
      PushKeepsOneEach(Entry(op.key, op.value), r);
      OneEachIs([Entry(op.key, op.value)] + r);
    }
  }

  /** Of two keys set in a row both are held, unless there is room for one only. */
  lemma SetTwice<V>(r: seq<Entry<V>>, size: int, k: string, v: V, k2: string, v2: V)
    requires k != k2 && size != 1
    ensures Lookup(Set(Set(r, size, k, v), size, k2, v2), k) == Some(v)
  {
    var r1 := Set(r, size, k, v);
    assert r1[0] == Entry(k, v);
    var r2 := Set(r1, size, k2, v2);
    assert r2[0] == Entry(k2, v2) && r2[1] == Entry(k, v);
    FindIs(r2, k, 1);
  }

  lemma FindIs<V>(r: seq<Entry<V>>, k: string, i: nat)
    requires i <= |r| && (i < |r| ==> r[i].key == k)
    requires forall j :: 0 <= j < i ==> r[j].key != k
    ensures Find(r, k) == i
  {
  }

  lemma {:induction false} LookupPrefix<V>(r: seq<Entry<V>>, n: nat, k: string)
    requires n <= |r|
    ensures Lookup(r[..n], k).Some? ==> Lookup(r[..n], k) == Lookup(r, k)
  {
    var i := Find(r[..n], k);
    if i < n { assert Find(r, k) == i; }
  }

  lemma ApplyKeepsOthers<V>(r: seq<Entry<V>>, size: int, op: Op<V>, k: string)
    requires k != op.key
    ensures Lookup(Apply(r, size, op), k).Some? ==> Lookup(Apply(r, size, op), k) == Lookup(r, k)
  {
    var i := Find(r, op.key);
    LookupWithout(r, op.key, k);
    match op
    case OpGet(_) =>
      if i < |r| { LookupPush(r[i], Without(r, op.key), k); }
    case OpSet(_, v) =>
      var e := Entry(op.key, v);
      LookupPush(e, Without(r, op.key), k);
      LookupPush(e, r, k);
      LookupPrefix([e] + r, |r|, k);
  }

  /** A held key has the value of the last Set of that key. */
  lemma {:induction false} HeldValueIsLastSet<V>(ops: seq<Op<V>>, size: int, k: string)
    ensures Lookup(Run(ops, size), k).Some? ==> Lookup(Run(ops, size), k) == LastSet(ops, k)
  {
    if ops != [] {
      var before, op := ops[..|ops| - 1], ops[|ops| - 1];
      var r := Run(before, size);
      HeldValueIsLastSet(before, size, k);
      if k != op.key {
        ApplyKeepsOthers(r, size, op, k);
      } else if op.OpSet? {
        SetGives(r, size, k, op.value);
      } else {
        GetKeeps(r, k);
      }
    }
  }

  lemma SetGives<V>(r: seq<Entry<V>>, size: int, k: string, v: V)
    ensures Lookup(Set(r, size, k, v), k) == Some(v)
  {
    assert Set(r, size, k, v) == [] || Set(r, size, k, v)[0] == Entry(k, v);
  }

  lemma GetKeeps<V>(r: seq<Entry<V>>, k: string)
    ensures Lookup(Get(r, k), k) == Lookup(r, k)
  {
    var i := Find(r, k);
    if i < |r| { LookupPush(r[i], Without(r, k), k); }
  }
}
