/**
 * Transient data is mirrored to listeners: each gets the current data when it registers and a
 * message for every change after that.
 */
module TransientSpec {
  import opened Options

  datatype Message<+V> =
    | Initial(data: map<string, V>)
    | Changed(key: string, previous: Option<V>, value: V)
    | Removed(key: string, last: V)

  /** `data` is absent until the first value is set; logs[l] are the messages since l was registered. */
  datatype State<V> = State(data: Option<map<string, V>>, listeners: set<nat>, logs: Logs<V>)

  function Data<V>(s: State<V>): map<string, V> {
    if s.data.Some? then s.data.value else map[]
  }

  function Get<V>(m: map<string, V>, key: string): Option<V> {
    if key in m then Some(m[key]) else None
  }

  type Logs<V> = map<nat, seq<Message<V>>>

  function Log<V>(logs: Logs<V>, l: nat): seq<Message<V>> {
    if l in logs then logs[l] else []
  }

  /** The logs after every listener was sent a message. */
  function Notified<V>(logs: Logs<V>, listeners: set<nat>, msg: Message<V>): Logs<V> {
    map l | l in logs.Keys + listeners :: if l in listeners then Log(logs, l) + [msg] else Log(logs, l)
  }

  function Put<V>(s: State<V>, key: string, value: V): State<V> {
    s.(data := Some(Data(s)[key := value]),
       logs := Notified(s.logs, s.listeners, Changed(key, Get(Data(s), key), value)))
  }

  function Delete<V>(s: State<V>, key: string): State<V>
    requires key in Data(s)
  {
    s.(data := Some(Data(s) - {key}), logs := Notified(s.logs, s.listeners, Removed(key, Data(s)[key])))
  }

  // None stands for nil; equality of values is deep equality.

  function Set<V(==)>(s: State<V>, key: string, value: Option<V>): (State<V>, bool) {
    if value.None? then Remove(s, key)
    else if Get(Data(s), key) == value then (s, false)
    else (Put(s, key, value.value), true)
  }

  datatype Outcome = Done | Refused | Panics

  /** Writing to the map before it was created panics. */
  function CompareAndSet<V(==)>(s: State<V>, key: string, expected: Option<V>, value: Option<V>): (State<V>, Outcome) {
    if value.None? then
      var (s', removed) := CompareAndRemove(s, key, expected);
      (s', if removed then Done else Refused)
    else if Get(Data(s), key) != expected then (s, Refused)
    else if s.data.None? then (s, Panics)
    else (Put(s, key, value.value), Done)
  }

  function Remove<V>(s: State<V>, key: string): (State<V>, bool) {
    if key in Data(s) then (Delete(s, key), true) else (s, false)
  }

  function CompareAndRemove<V(==)>(s: State<V>, key: string, expected: Option<V>): (State<V>, bool) {
    if key in Data(s) && Some(Data(s)[key]) == expected then (Delete(s, key), true) else (s, false)
  }

  /** Registering again keeps the log; registering after having been removed starts a new one. */
  function AddListener<V>(s: State<V>, l: nat): State<V> {
    var log := if l in s.listeners then Log(s.logs, l) else [];
    s.(listeners := s.listeners + {l},
       logs := s.logs[l := if Data(s) == map[] then log else log + [Initial(Data(s))]])
  }

  function RemoveListener<V>(s: State<V>, l: nat): State<V> {
    s.(listeners := s.listeners - {l})
  }

  datatype Step<+V> =
    | StepSet(key: string, value: Option<V>)
    | StepCompareAndSet(key: string, expected: Option<V>, value: Option<V>)
    | StepRemove(key: string)
    | StepCompareAndRemove(key: string, expected: Option<V>)
    | StepAdd(l: nat)
    | StepRemoveListener(l: nat)

  function Next<V(==)>(s: State<V>, step: Step<V>): State<V> {
    match step
    case StepSet(key, value) => Set(s, key, value).0
    case StepCompareAndSet(key, expected, value) => CompareAndSet(s, key, expected, value).0
    case StepRemove(key) => Remove(s, key).0
    case StepCompareAndRemove(key, expected) => CompareAndRemove(s, key, expected).0
    case StepAdd(l) => AddListener(s, l)
    case StepRemoveListener(l) => RemoveListener(s, l)
  }

  function Run<V(==)>(steps: seq<Step<V>>): State<V> {
    if steps == [] then State(None, {}, map[]) else Next(Run(steps[..|steps| - 1]), steps[|steps| - 1])
  }

  // ---- Mirrors ----

  function Apply<V>(m: map<string, V>, msg: Message<V>): map<string, V> {
    match msg
    case Initial(data) => data
    case Changed(key, _, value) => m[key := value]
    case Removed(key, _) => m - {key}
  }

  /** What a listener that starts from m holds after these messages. */
  function Replay<V>(m: map<string, V>, log: seq<Message<V>>): map<string, V> {
    if log == [] then m else Apply(Replay(m, log[..|log| - 1]), log[|log| - 1])
  }

  /** The old value in a message is what a mirror held before it. */
  predicate OldMatches<V(==)>(m: map<string, V>, msg: Message<V>) {
    match msg
    case Initial(_) => true
    case Changed(key, previous, _) => previous == Get(m, key)
    case Removed(key, last) => Some(last) == Get(m, key)
  }

  predicate OldsMatch<V(==)>(log: seq<Message<V>>) {
    log == [] || (OldsMatch(log[..|log| - 1]) && OldMatches(Replay(map[], log[..|log| - 1]), log[|log| - 1]))
  }

  ghost predicate Mirrored<V>(s: State<V>, l: nat) {
    Replay(map[], Log(s.logs, l)) == Data(s) && OldsMatch(Log(s.logs, l))
  }

  ghost predicate Inv<V>(s: State<V>) {
    forall l :: l in s.listeners ==> Mirrored(s, l)
  }

  lemma ReplayAppend<V>(m: map<string, V>, log: seq<Message<V>>, msg: Message<V>)
    ensures Replay(m, log + [msg]) == Apply(Replay(m, log), msg)
    ensures OldsMatch(log + [msg]) <==> OldsMatch(log) && OldMatches(Replay(map[], log), msg)
  {
    assert (log + [msg])[..|log|] == log;
  }

  lemma PutKeepsInv<V>(s: State<V>, key: string, value: V)
    requires Inv(s)
    ensures Inv(Put(s, key, value))
  {
    var s' := Put(s, key, value);
    forall l | l in s'.listeners ensures Mirrored(s', l) {
      assert Mirrored(s, l);
      ReplayAppend(map[], Log(s.logs, l), Changed(key, Get(Data(s), key), value));
    }
  }

  lemma DeleteKeepsInv<V>(s: State<V>, key: string)
    requires Inv(s) && key in Data(s)
    ensures Inv(Delete(s, key))
  {
    var s' := Delete(s, key);
    forall l | l in s'.listeners ensures Mirrored(s', l) {
      assert Mirrored(s, l);
      ReplayAppend(map[], Log(s.logs, l), Removed(key, Data(s)[key]));
    }
  }

  lemma AddListenerKeepsInv<V>(s: State<V>, l: nat)
    requires Inv(s)
    ensures Inv(AddListener(s, l))
  {
    var s' := AddListener(s, l);
    var log := if l in s.listeners then Log(s.logs, l) else [];
    ReplayAppend(map[], log, Initial(Data(s)));
    forall k | k in s'.listeners ensures Mirrored(s', k) {
      if k in s.listeners { assert Mirrored(s, k); }
    }
  }

  lemma StepKeepsInv<V>(s: State<V>, step: Step<V>)
    requires Inv(s)
    ensures Inv(Next(s, step))
  {
    match step
    case StepSet(key, value) =>
      if value.Some? { PutKeepsInv(s, key, value.value); } else if key in Data(s) { DeleteKeepsInv(s, key); }
    case StepCompareAndSet(key, _, value) =>
      if value.Some? { PutKeepsInv(s, key, value.value); } else if key in Data(s) { DeleteKeepsInv(s, key); }
    case StepRemove(key) => if key in Data(s) { DeleteKeepsInv(s, key); }
    case StepCompareAndRemove(key, _) => if key in Data(s) { DeleteKeepsInv(s, key); }
    case StepAdd(l) => AddListenerKeepsInv(s, l);
    case StepRemoveListener(l) =>
      forall k | k in Next(s, step).listeners ensures Mirrored(Next(s, step), k) {
        assert Mirrored(s, k);
      }
  }

  lemma {:induction false} RunKeepsInv<V>(steps: seq<Step<V>>)
    ensures Inv(Run(steps))
  {
    if steps != [] {
      RunKeepsInv(steps[..|steps| - 1]);
      StepKeepsInv(Run(steps[..|steps| - 1]), steps[|steps| - 1]);
    }
  }

  lemma {:induction false} OldsMatchAt<V>(log: seq<Message<V>>, i: nat)
    requires OldsMatch(log) && i < |log|
    ensures OldMatches(Replay(map[], log[..i]), log[i])
  {
    if i < |log| - 1 {
      OldsMatchAt(log[..|log| - 1], i);
      assert log[..|log| - 1][..i] == log[..i];
    }
  }

  // ---- The data, key by key ----

  /** What one operation makes of the value at its key; `created` says that some value was set before. */
  function Written<V(==)>(value: Option<V>, created: bool, step: Step<V>): Option<V> {
    match step
    case StepSet(_, v) => v
    case StepCompareAndSet(_, expected, v) =>
      if value == expected && (v.None? || created) then v else value
    case StepRemove(_) => None
    case StepCompareAndRemove(_, expected) => if value == expected then None else value
    case _ => value
  }

  /** The value at a key by its own history: operations on other keys and listeners do not touch it. */
  ghost function ValueOf<V>(steps: seq<Step<V>>, key: string): Option<V> {
    if steps == [] then None
    else
      var before, step := steps[..|steps| - 1], steps[|steps| - 1];
      if step.StepAdd? || step.StepRemoveListener? || step.key != key then ValueOf(before, key)
      else Written(ValueOf(before, key), exists i :: 0 <= i < |before| && SetsValue(before[i]), step)
  }

  /** After any run the data holds at each key what the operations on that key have made of it. */
  lemma {:induction false} DataIsKeyHistories<V>(steps: seq<Step<V>>, key: string)
    ensures Get(Data(Run(steps)), key) == ValueOf(steps, key)
  {
    if steps != [] {
      DataIsKeyHistories(steps[..|steps| - 1], key);
      CreatedBySet(steps[..|steps| - 1]);
    }
  }

  // ---- What each operation reports and tells ----

  /** Every registered listener got this message and nobody got anything else. */
  ghost predicate Told<V>(s: State<V>, s': State<V>, msg: Message<V>) {
    && s'.listeners == s.listeners
    && (forall l :: Log(s'.logs, l) == if l in s.listeners then Log(s.logs, l) + [msg] else Log(s.logs, l))
  }

  lemma PutTells<V>(s: State<V>, key: string, value: V)
    ensures Told(s, Put(s, key, value), Changed(key, Get(Data(s), key), value))
  {
  }

  lemma DeleteTells<V>(s: State<V>, key: string)
    requires key in Data(s)
    ensures Told(s, Delete(s, key), Removed(key, Data(s)[key]))
  {
  }

  /** A set reports and tells a change exactly if the value is another one, and else does nothing. */
  lemma SetTells<V>(s: State<V>, key: string, value: V)
    ensures var (s', changed) := Set(s, key, Some(value));
      && (changed <==> Get(Data(s), key) != Some(value))
      && (if changed then Data(s') == Data(s)[key := value] && Told(s, s', Changed(key, Get(Data(s), key), value))
          else s' == s)
  {
    PutTells(s, key, value);
  }

  /** A removal reports and tells a change exactly if there is a value; setting nothing is a removal. */
  lemma RemoveTells<V>(s: State<V>, key: string)
    ensures Set(s, key, None) == Remove(s, key)
    ensures var (s', removed) := Remove(s, key);
      && (removed <==> key in Data(s))
      && (if removed then Data(s') == Data(s) - {key} && Told(s, s', Removed(key, Data(s)[key])) else s' == s)
  {
    if key in Data(s) { DeleteTells(s, key); }
  }

  /** The compare operations do the same exactly if the current value is the expected one. */
  lemma CompareTells<V>(s: State<V>, key: string, expected: Option<V>, value: V)
    ensures var (s', outcome) := CompareAndSet(s, key, expected, Some(value));
      && (outcome.Refused? <==> Get(Data(s), key) != expected)
      && (if outcome.Done? then Data(s') == Data(s)[key := value] && Told(s, s', Changed(key, expected, value))
          else s' == s)
    ensures var (s', removed) := CompareAndRemove(s, key, expected);
      && (removed <==> key in Data(s) && expected == Some(Data(s)[key]))
      && (if removed then Data(s') == Data(s) - {key} && Told(s, s', Removed(key, Data(s)[key])) else s' == s)
    ensures CompareAndSet(s, key, expected, None) ==
      (CompareAndRemove(s, key, expected).0, if CompareAndRemove(s, key, expected).1 then Done else Refused)
  {
    PutTells(s, key, value);
    if key in Data(s) { DeleteTells(s, key); }
  }

  /** A listener is told the data when it registers, unless there is none, and nothing once it is removed. */
  lemma ListenerStep<V>(s: State<V>, step: Step<V>, l: nat)
    ensures var s' := Next(s, step);
      && (l in s'.listeners <==> step == StepAdd(l) || (l in s.listeners && step != StepRemoveListener(l)))
      && (l !in s.listeners && step != StepAdd(l) ==> Log(s'.logs, l) == Log(s.logs, l))
      && (step == StepAdd(l) ==>
            Log(s'.logs, l) == (if l in s.listeners then Log(s.logs, l) else [])
                               + (if Data(s) == map[] then [] else [Initial(Data(s))]))
  {
    match step
    case StepSet(key, value) => if value.Some? { PutTells(s, key, value.value); } else { RemoveTells(s, key); }
    case StepCompareAndSet(key, expected, value) =>
      if value.Some? { PutTells(s, key, value.value); } else if key in Data(s) { DeleteTells(s, key); }
    case StepRemove(key) => RemoveTells(s, key);
    case StepCompareAndRemove(key, _) => if key in Data(s) { DeleteTells(s, key); }
    case StepAdd(_) =>
    case StepRemoveListener(_) =>
  }

  // ---- Compare-and-set before any value exists ----

  predicate SetsValue<V>(step: Step<V>) {
    step.StepSet? && step.value.Some?
  }

  lemma {:induction false} CreatedBySet<V>(steps: seq<Step<V>>)
    ensures Run(steps).data.Some? <==> exists i :: 0 <= i < |steps| && SetsValue(steps[i])
  {
    if steps != [] {
      var n := |steps| - 1;
      CreatedBySet(steps[..n]);
      if exists i :: 0 <= i < n && SetsValue(steps[..n][i]) {
        var i :| 0 <= i < n && SetsValue(steps[..n][i]);
        assert SetsValue(steps[i]);
      }
    }
  }

  /** CompareAndSet panics exactly when it would create a value before any Set has stored one. */
  lemma PanicsBeforeFirstSet<V>(steps: seq<Step<V>>, key: string, expected: Option<V>, value: Option<V>)
    ensures CompareAndSet(Run(steps), key, expected, value).1.Panics? <==>
      value.Some? && expected.None? && forall i :: 0 <= i < |steps| ==> !SetsValue(steps[i])
  {
    CreatedBySet(steps);
  }

  /** The least such call: a compare-and-set of a new value on fresh data. */
  lemma FirstCompareAndSetPanics<V>(key: string, value: V)
    ensures CompareAndSet(Run([]), key, None, Some(value)).1.Panics?
  {
    PanicsBeforeFirstSet([], key, None, Some(value));
  }

  // ---- An initial message that is read late ----

  /** The value a log leaves at a key, if any of its messages is about that key. */
  function Effect<V>(log: seq<Message<V>>, key: string): Option<Option<V>>
    requires forall msg :: msg in log ==> !msg.Initial?
  {
    if log == [] then None
    else
      var msg := log[|log| - 1];
      if msg.key == key then Some(if msg.Changed? then Some(msg.value) else None) else Effect(log[..|log| - 1], key)
  }

  lemma {:induction false} ReplayEffect<V>(m: map<string, V>, log: seq<Message<V>>, key: string)
    requires forall msg :: msg in log ==> !msg.Initial?
    ensures Get(Replay(m, log), key) == match Effect(log, key) case Some(v) => v case None => Get(m, key)
  {
    if log != [] { ReplayEffect(m, log[..|log| - 1], key); }
  }

  lemma {:induction false} EffectOfPrefix<V>(log: seq<Message<V>>, n: nat, key: string)
    requires n <= |log| && forall msg :: msg in log ==> !msg.Initial?
    ensures Effect(log, key).None? ==> Effect(log[..n], key).None?
    decreases |log|
  {
    if n < |log| {
      var before := log[..|log| - 1];
      assert before[..n] == log[..n];
      EffectOfPrefix(before, n, key);
    } else {
      assert log[..n] == log;
    }
  }

  /** Changes replayed on top of data that shows the first n of them already. */
  lemma LateInitialConverges<V>(m: map<string, V>, log: seq<Message<V>>, n: nat)
    requires n <= |log| && forall msg :: msg in log ==> !msg.Initial?
    ensures Replay(Replay(m, log[..n]), log) == Replay(m, log)
  {
    var a, b := Replay(Replay(m, log[..n]), log), Replay(m, log);
    forall key ensures Get(a, key) == Get(b, key) {
      ReplayEffect(Replay(m, log[..n]), log, key);
      ReplayEffect(m, log, key);
      ReplayEffect(m, log[..n], key);
      EffectOfPrefix(log, n, key);
    }
    SameData(a, b);
  }

  lemma SameData<V>(a: map<string, V>, b: map<string, V>)
    requires forall key :: Get(a, key) == Get(b, key)
    ensures a == b
  {
    assert forall key :: key in a <==> Get(a, key).Some?;
    assert forall key :: key in b <==> Get(b, key).Some?;
    forall key | key in a ensures key in b && a[key] == b[key] {
      assert Get(a, key) == Get(b, key);
    }
  }

  lemma {:induction false} ReplayConcat<V>(m: map<string, V>, a: seq<Message<V>>, b: seq<Message<V>>)
    ensures Replay(m, a + b) == Replay(Replay(m, a), b)
  {
    if b == [] {
      assert a + b == a;
    } else {
      assert (a + b)[..|a + b| - 1] == a + b[..|b| - 1];
      ReplayConcat(m, a, b[..|b| - 1]);
    }
  }

  /** An initial message makes everything before it irrelevant. */
  lemma ReplayFromInitial<V>(log: seq<Message<V>>, i: nat, k: nat)
    requires i < k <= |log| && log[i].Initial?
    ensures Replay(map[], log[..k]) == Replay(log[i].data, log[i + 1..k])
  {
    assert log[..k] == log[..i + 1] + log[i + 1..k];
    ReplayConcat(map[], log[..i + 1], log[i + 1..k]);
    assert log[..i + 1][..i] == log[..i];
  }

  /**
   * What a listener may see of its log: the initial message refers to the live map, so one that waits
   * in a queue shows the data as it is when the message is written at last.
   */
  ghost predicate SeenLate<V>(log: seq<Message<V>>, seen: seq<Message<V>>) {
    |seen| == |log| && forall i :: 0 <= i < |log| ==> seen[i] == log[i] || ShownLate(log, i, seen[i])
  }

  ghost predicate ShownLate<V>(log: seq<Message<V>>, i: nat, msg: Message<V>)
    requires i < |log|
  {
    log[i].Initial? && exists j :: i < j <= |log| && msg == Initial(Replay(map[], log[..j]))
  }

  lemma SeenTail<V>(log: seq<Message<V>>, seen: seq<Message<V>>, e: nat)
    requires SeenLate(log, seen) && e <= |log| && forall k :: e <= k < |log| ==> !log[k].Initial?
    ensures seen[e..] == log[e..]
  {
    forall k | e <= k < |log| ensures seen[k] == log[k] {
      assert !ShownLate(log, k, seen[k]);
    }
  }

  lemma LastInitialConverges<V>(log: seq<Message<V>>, seen: seq<Message<V>>, i: nat)
    requires SeenLate(log, seen) && i < |log| && log[i].Initial?
    requires forall k :: i < k < |log| ==> !log[k].Initial?
    ensures Replay(map[], seen) == Replay(map[], log)
  {
    var tail := log[i + 1..];
    SeenTail(log, seen, i + 1);
    assert log[..|log|] == log && seen[..|log|] == seen;
    ReplayFromInitial(log, i, |log|);
    ReplayFromInitial(seen, i, |log|);
    if seen[i] != log[i] {
      var j :| i < j <= |log| && seen[i] == Initial(Replay(map[], log[..j]));
      ReplayFromInitial(log, i, j);
      assert log[i + 1..j] == tail[..j - i - 1];
      LateInitialConverges(log[i].data, tail, j - i - 1);
    }
  }

  lemma {:induction false} SeenConverges<V>(log: seq<Message<V>>, seen: seq<Message<V>>, e: nat)
    requires SeenLate(log, seen) && e <= |log| && forall k :: e <= k < |log| ==> !log[k].Initial?
    ensures Replay(map[], seen) == Replay(map[], log)
  {
    if e == 0 {
      SeenTail(log, seen, 0);
      assert seen[0..] == seen && log[0..] == log;
    } else if log[e - 1].Initial? {
      LastInitialConverges(log, seen, e - 1);
    } else {
      SeenConverges(log, seen, e - 1);
    }
  }

  /** However late a registered listener sees its initial messages, it ends with the current data. */
  lemma LateListenersConverge<V>(steps: seq<Step<V>>, l: nat, seen: seq<Message<V>>)
    requires l in Run(steps).listeners && SeenLate(Log(Run(steps).logs, l), seen)
    ensures Replay(map[], seen) == Data(Run(steps))
  {
    RunKeepsInv(steps);
    assert Mirrored(Run(steps), l);
    SeenConverges(Log(Run(steps).logs, l), seen, |seen|);
  }

  /**
   * After any run, a registered listener that replays its messages from an empty map holds exactly the
   * current data, however late it reads its initial messages; and if it reads every message as it was
   * sent, each names the old value it held.
   */
  lemma ListenersMirrorData<V>(steps: seq<Step<V>>, l: nat, seen: seq<Message<V>>, i: nat)
    requires l in Run(steps).listeners && SeenLate(Log(Run(steps).logs, l), seen)
    ensures Replay(map[], seen) == Data(Run(steps))
    ensures seen == Log(Run(steps).logs, l) && i < |seen| ==> OldMatches(Replay(map[], seen[..i]), seen[i])
  {
    LateListenersConverge(steps, l, seen);
    RunKeepsInv(steps);
    assert Mirrored(Run(steps), l);
    if seen == Log(Run(steps).logs, l) && i < |seen| {
      OldsMatchAt(seen, i);
    }
  }

  // ---- Old values after a late initial message ----

  lemma OldMatchesLate<V>(m: map<string, V>, d: map<string, V>, tail: seq<Message<V>>, k: nat)
    requires k < |tail| && (forall msg :: msg in tail ==> !msg.Initial?)
    requires OldMatches(Replay(m, tail[..k]), tail[k])
    ensures OldMatches(Replay(d, tail[..k]), tail[k]) <==>
      Effect(tail[..k], tail[k].key).Some? || Get(d, tail[k].key) == Get(m, tail[k].key)
  {
    ReplayEffect(m, tail[..k], tail[k].key);
    ReplayEffect(d, tail[..k], tail[k].key);
  }

  /** The first message about a key. */
  lemma {:induction false} FirstTouch<V>(tail: seq<Message<V>>, k: nat) returns (f: nat)
    requires k < |tail| && (forall msg :: msg in tail ==> !msg.Initial?)
    ensures f <= k && tail[f].key == tail[k].key && Effect(tail[..f], tail[f].key).None?
  {
    f := k;
    if Effect(tail[..k], tail[k].key).Some? {
      var i := TouchedAt(tail[..k], tail[k].key);
      f := FirstTouch(tail, i);
    }
  }

  lemma {:induction false} TouchedAt<V>(log: seq<Message<V>>, key: string) returns (i: nat)
    requires forall msg :: msg in log ==> !msg.Initial?
    requires Effect(log, key).Some?
    ensures i < |log| && log[i].key == key
  {
    i := |log| - 1;
    if log[i].key != key {
      i := TouchedAt(log[..i], key);
    }
  }

  ghost predicate AllOldsMatch<V>(m: map<string, V>, tail: seq<Message<V>>) {
    forall k :: 0 <= k < |tail| ==> OldMatches(Replay(m, tail[..k]), tail[k])
  }

  /** Changes that name the right old values from m do so from d exactly when d has the same values at their keys. */
  lemma OldsMatchIffAgree<V>(m: map<string, V>, d: map<string, V>, tail: seq<Message<V>>)
    requires (forall msg :: msg in tail ==> !msg.Initial?) && AllOldsMatch(m, tail)
    ensures AllOldsMatch(d, tail) <==>
      forall k :: 0 <= k < |tail| ==> Get(d, tail[k].key) == Get(m, tail[k].key)
  {
    forall k | 0 <= k < |tail| && AllOldsMatch(d, tail) ensures Get(d, tail[k].key) == Get(m, tail[k].key) {
      var f := FirstTouch(tail, k);
      OldMatchesLate(m, d, tail, f);
    }
    forall k | 0 <= k < |tail| && Get(d, tail[k].key) == Get(m, tail[k].key)
      ensures OldMatches(Replay(d, tail[..k]), tail[k])
    {
      OldMatchesLate(m, d, tail, k);
    }
  }

  /**
   * The old values named after a late initial message are those the mirror held exactly when the data
   * it shows is the data it was sent with.
   */
  lemma LateOldsMatchIff<V>(m: map<string, V>, tail: seq<Message<V>>, n: nat)
    requires n <= |tail| && (forall msg :: msg in tail ==> !msg.Initial?) && AllOldsMatch(m, tail)
    ensures AllOldsMatch(Replay(m, tail[..n]), tail) <==> Replay(m, tail[..n]) == m
  {
    var d := Replay(m, tail[..n]);
    OldsMatchIffAgree(m, d, tail);
    if AllOldsMatch(d, tail) {
      forall key ensures Get(d, key) == Get(m, key) {
        ReplayEffect(m, tail[..n], key);
        if Effect(tail[..n], key).Some? {
          var i := TouchedAt(tail[..n], key);
          assert tail[i].key == key;
        }
      }
      SameData(d, m);
    }
  }

  /**
   * For a listener of any run whose initial message i is read when the data is that after message j - 1:
   * the messages up to the next initial one name the old values the mirror holds exactly when that data
   * has the same values at their keys as the data at the time of the registration.
   */
  lemma LateOldValues<V>(steps: seq<Step<V>>, l: nat, i: nat, e: nat, j: nat)
    requires l in Run(steps).listeners
    requires var log := Log(Run(steps).logs, l);
      && i < e <= |log| && i < j <= |log| && log[i].Initial?
      && forall k :: i < k < e ==> !log[k].Initial?
    ensures var log := Log(Run(steps).logs, l);
      var late := Replay(map[], log[..j]);
      var seen := log[i := Initial(late)];
      (forall k :: i < k < e ==> OldMatches(Replay(map[], seen[..k]), seen[k])) <==>
        forall k :: i < k < e ==> Get(late, log[k].key) == Get(log[i].data, log[k].key)
  {
    RunKeepsInv(steps);
    var log := Log(Run(steps).logs, l);
    assert Mirrored(Run(steps), l);
    var late := Replay(map[], log[..j]);
    var seen := log[i := Initial(late)];
    var tail := log[i + 1..e];
    SegmentOlds(log, i, e);
    SegmentMatches(seen, i, e);
    assert seen[i + 1..e] == tail;
    OldsMatchIffAgree(log[i].data, late, tail);
    assert forall k :: i < k < e ==> log[k] == tail[k - i - 1];
    assert forall k :: 0 <= k < |tail| ==> tail[k] == log[i + 1 + k];
  }

  lemma SegmentMatches<V>(log: seq<Message<V>>, i: nat, e: nat)
    requires i < e <= |log| && log[i].Initial?
    ensures (forall k :: i < k < e ==> OldMatches(Replay(map[], log[..k]), log[k])) <==>
      AllOldsMatch(log[i].data, log[i + 1..e])
  {
    var tail := log[i + 1..e];
    forall k | i < k < e
      ensures Replay(map[], log[..k]) == Replay(log[i].data, tail[..k - i - 1]) && log[k] == tail[k - i - 1]
    {
      ReplayFromInitial(log, i, k);
      assert tail[..k - i - 1] == log[i + 1..k];
    }
    forall k | 0 <= k < |tail|
      ensures OldMatches(Replay(log[i].data, tail[..k]), tail[k]) <==>
        OldMatches(Replay(map[], log[..k + i + 1]), log[k + i + 1])
    {
      assert i < k + i + 1 < e;
    }
  }

  lemma SegmentOlds<V>(log: seq<Message<V>>, i: nat, e: nat)
    requires i < e <= |log| && log[i].Initial? && OldsMatch(log)
    ensures AllOldsMatch(log[i].data, log[i + 1..e])
  {
    forall k | i < k < e ensures OldMatches(Replay(map[], log[..k]), log[k]) {
      OldsMatchAt(log, k);
    }
    SegmentMatches(log, i, e);
  }

  lemma ChangeAfterRegistration<V>(key: string, l: nat, a: V, b: V)
    requires a != b
    ensures var s := Run([StepSet(key, Some(a)), StepAdd(l), StepSet(key, Some(b))]);
      l in s.listeners && Log(s.logs, l) == [Initial(map[key := a]), Changed(key, Some(a), b)]
  {
    var s1, s2, s3 := StepSet(key, Some(a)), StepAdd(l), StepSet(key, Some(b));
    assert [s1, s2, s3][..2] == [s1, s2] && [s1, s2][..1] == [s1] && [s1][..0] == [];
    assert Run([s1]).data == Some(map[key := a]);
    assert Log(Run([s1, s2]).logs, l) == [Initial(map[key := a])];
  }

  lemma LateView<V>(key: string, a: V, b: V)
    ensures var log: seq<Message<V>> := [Initial(map[key := a]), Changed(key, Some(a), b)];
      SeenLate(log, [Initial(map[key := b]), log[1]])
  {
    var log: seq<Message<V>> := [Initial(map[key := a]), Changed(key, Some(a), b)];
    assert log[..2] == log && log[..1] == [log[0]] && [log[0]][..0] == [];
    assert Replay(map[], [log[0]]) == map[key := a];
    assert Replay(map[], log[..2]) == map[key := b];
    assert ShownLate(log, 0, Initial(map[key := b]));
  }

  /** A listener that reads its initial message after the next change is told an old value it does not hold. */
  lemma LateInitialBreaksOldValue<V>(key: string, l: nat, a: V, b: V)
    requires a != b
    ensures var s := Run([StepSet(key, Some(a)), StepAdd(l), StepSet(key, Some(b))]);
      var log := Log(s.logs, l);
      && l in s.listeners && log == [Initial(map[key := a]), Changed(key, Some(a), b)]
      && SeenLate(log, [Initial(map[key := b]), log[1]])
      && !OldMatches(Replay(map[], [Initial(map[key := b])]), log[1])
  {
    ChangeAfterRegistration(key, l, a, b);
    LateView(key, a, b);
    var late: Message<V> := Initial(map[key := b]);
    assert [late][..0] == [];
    assert Replay(map[], [late]) == map[key := b];
  }
}

/** The transient data container as an object; `sent` are the messages each listener got since it registered. */
module TransientData {
  import opened Options
  import S = TransientSpec

  class TransientData<V(==)> {
    var data: Option<map<string, V>>
    var listeners: set<nat>
    var sent: map<nat, seq<S.Message<V>>>

    ghost function View(): S.State<V>
      reads this
    {
      S.State(data, listeners, sent)
    }

    constructor ()
      ensures View() == S.Run<V>([])
    {
      data, listeners, sent := None, {}, map[];
    }

    method SendMessage(l: nat, msg: S.Message<V>)
      modifies this`sent
      ensures sent == old(sent)[l := S.Log(old(sent), l) + [msg]]
    {
      sent := sent[l := (if l in sent then sent[l] else []) + [msg]];
    }

    method Notify(msg: S.Message<V>)
      modifies this`sent
      ensures sent == S.Notified(old(sent), listeners, msg)
    {
      var todo := listeners;
      assert sent == S.Notified(old(sent), {}, msg);
      while todo != {}
        invariant todo <= listeners && sent == S.Notified(old(sent), listeners - todo, msg)
        decreases todo
      {
        var l :| l in todo;
        SendMessage(l, msg);
        todo := todo - {l};
        assert sent == S.Notified(old(sent), listeners - todo, msg);
      }
      assert listeners - todo == listeners;
    }

    method Set(key: string, value: Option<V>) returns (changed: bool)
      modifies this
      ensures (View(), changed) == S.Set(old(View()), key, value)
    {
      if value.None? {
        changed := Remove(key);
        return;
      }
      var prev := if data.Some? && key in data.value then Some(data.value[key]) else None;
      if prev == value {
        return false;
      }
      if data.None? {
        data := Some(map[]);
      }
      data := Some(data.value[key := value.value]);
      Notify(S.Changed(key, prev, value.value));
      return true;
    }

    method CompareAndSet(key: string, expected: Option<V>, value: Option<V>) returns (outcome: S.Outcome)
      modifies this
      ensures (View(), outcome) == S.CompareAndSet(old(View()), key, expected, value)
    {
      if value.None? {
        var removed := CompareAndRemove(key, expected);
        return if removed then S.Done else S.Refused;
      }
      var prev := if data.Some? && key in data.value then Some(data.value[key]) else None;
      if prev != expected {
        return S.Refused;
      }
      if data.None? {
        return S.Panics;
      }
      data := Some(data.value[key := value.value]);
      Notify(S.Changed(key, prev, value.value));
      return S.Done;
    }

    method Remove(key: string) returns (removed: bool)
      modifies this
      ensures (View(), removed) == S.Remove(old(View()), key)
    {
      if data.None? || key !in data.value {
        return false;
      }
      var prev := data.value[key];
      data := Some(data.value - {key});
      Notify(S.Removed(key, prev));
      return true;
    }

    method CompareAndRemove(key: string, expected: Option<V>) returns (removed: bool)
      modifies this
      ensures (View(), removed) == S.CompareAndRemove(old(View()), key, expected)
    {
      if data.None? || key !in data.value || Some(data.value[key]) != expected {
        return false;
      }
      var prev := data.value[key];
      data := Some(data.value - {key});
      Notify(S.Removed(key, prev));
      return true;
    }

    method AddListener(l: nat)
      modifies this
      ensures View() == S.AddListener(old(View()), l)
    {
      if l !in listeners || l !in sent {
        sent := sent[l := []];
      }
      listeners := listeners + {l};
      if data.Some? && data.value != map[] {
        SendMessage(l, S.Initial(data.value));
      }
      assert sent == S.AddListener(old(View()), l).logs;
    }

    method RemoveListener(l: nat)
      modifies this
      ensures View() == S.RemoveListener(old(View()), l)
    {
      listeners := listeners - {l};
    }
  }
}
