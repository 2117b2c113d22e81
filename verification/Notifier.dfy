/**
 * The notifier: waiters for a key share the cancellation context of their generation, and a
 * generation ends when the key is notified, the notifier is reset or its last waiter is
 * released. Waiters and contexts are told apart by numbers that are never reused.
 */
module NotifierSpec {
  datatype Waiter = Waiter(id: nat, key: string, ctx: nat)

  /** `waiters` has one waiter per live generation, `waiterMap` all its members, `done` the cancelled contexts. */
  datatype State = State(
    waiters: map<string, Waiter>,
    waiterMap: map<string, set<Waiter>>,
    done: set<nat>,
    nextWaiter: nat,
    nextCtx: nat)

  const INITIAL := State(map[], map[], {}, 0, 0)

  function Members(s: State, key: string): set<Waiter> {
    if key in s.waiterMap then s.waiterMap[key] else {}
  }

  function NewWaiter(s: State, key: string): (State, Waiter) {
    var found := key in s.waiters;
    var w := Waiter(s.nextWaiter, key, if found then s.waiters[key].ctx else s.nextCtx);
    (s.(waiters := if found then s.waiters else s.waiters[key := w],
        waiterMap := s.waiterMap[key := Members(s, key) + {w}],
        nextWaiter := s.nextWaiter + 1,
        nextCtx := if found then s.nextCtx else s.nextCtx + 1),
     w)
  }

  function Reset(s: State): State {
    s.(waiters := map[], waiterMap := map[], done := s.done + set k | k in s.waiters :: s.waiters[k].ctx)
  }

  function Release(s: State, w: Waiter): State {
    if w !in Members(s, w.key) then s
    else
      var rest := s.waiterMap[w.key] - {w};
      var s' := s.(waiterMap := s.waiterMap[w.key := rest]);
      if rest != {} then s' else s'.(waiters := s.waiters - {w.key}, done := s.done + {w.ctx})
  }

  function Notify(s: State, key: string): State {
    if key !in s.waiters then s
    else
      s.(waiters := s.waiters - {key}, waiterMap := s.waiterMap - {key}, done := s.done + {s.waiters[key].ctx})
  }

  // ---- What every operation keeps ----

  /**
   * A key is in `waiters` exactly when its waiter set is non-empty. Then all members share one
   * context, which is not cancelled.
   */
  ghost predicate KeyOk(s: State, k: string) {
    && (k in s.waiters <==> Members(s, k) != {})
    && (k in s.waiters ==> s.waiters[k].key == k && s.waiters[k].ctx !in s.done)
    && (k in s.waiters ==> forall w :: w in Members(s, k) ==>
          w.key == k && w.ctx == s.waiters[k].ctx && w.id < s.nextWaiter)
  }

  ghost predicate ContextsApart(s: State) {
    && (forall k, k' :: k in s.waiters && k' in s.waiters && k != k' ==> s.waiters[k].ctx != s.waiters[k'].ctx)
    && (forall k :: k in s.waiters ==> s.waiters[k].ctx < s.nextCtx)
    && (forall c :: c in s.done ==> c < s.nextCtx)
  }

  ghost predicate Inv(s: State) {
    (forall k :: KeyOk(s, k)) && ContextsApart(s)
  }

  datatype Op = OpNew(key: string) | OpReset | OpRelease(w: Waiter) | OpNotify(key: string)

  function Step(s: State, op: Op): State {
    match op
    case OpNew(key) => NewWaiter(s, key).0
    case OpReset => Reset(s)
    case OpRelease(w) => Release(s, w)
    case OpNotify(key) => Notify(s, key)
  }

  function Run(ops: seq<Op>): State {
    if ops == [] then INITIAL else Step(Run(ops[..|ops| - 1]), ops[|ops| - 1])
  }

  lemma NewWaiterKeepsInv(s: State, key: string)
    requires Inv(s)
    ensures Inv(NewWaiter(s, key).0)
    ensures NewWaiter(s, key).1 in Members(NewWaiter(s, key).0, key)
    ensures NewWaiter(s, key).1.ctx !in s.done
  {
    var (s', w) := NewWaiter(s, key);
    assert KeyOk(s, key);
    assert w in Members(s', key);
    forall k ensures KeyOk(s', k) {
      assert KeyOk(s, k);
    }
  }

  lemma ReleaseKeepsInv(s: State, w: Waiter)
    requires Inv(s)
    ensures Inv(Release(s, w))
  {
    assert KeyOk(s, w.key);
    forall k ensures KeyOk(Release(s, w), k) {
      assert KeyOk(s, k);
    }
  }

  lemma NotifyKeepsInv(s: State, key: string)
    requires Inv(s)
    ensures Inv(Notify(s, key))
  {
    assert KeyOk(s, key);
    forall k ensures KeyOk(Notify(s, key), k) {
      assert KeyOk(s, k);
    }
  }

  lemma ResetKeepsInv(s: State)
    requires Inv(s)
    ensures Inv(Reset(s))
  {
  }

  lemma StepKeepsInv(s: State, op: Op)
    requires Inv(s)
    ensures Inv(Step(s, op))
  {
    match op
    case OpNew(key) => NewWaiterKeepsInv(s, key);
    case OpReset => ResetKeepsInv(s);
    case OpRelease(w) => ReleaseKeepsInv(s, w);
    case OpNotify(key) => NotifyKeepsInv(s, key);
  }

  lemma {:induction false} RunKeepsInv(ops: seq<Op>)
    ensures Inv(Run(ops))
  {
    if ops != [] {
      RunKeepsInv(ops[..|ops| - 1]);
      StepKeepsInv(Run(ops[..|ops| - 1]), ops[|ops| - 1]);
    }
  }

  // ---- Generations ----

  predicate Wakes(op: Op, key: string) {
    op.OpReset? || op == OpNotify(key)
  }

  lemma DoneStays(s: State, op: Op)
    ensures s.done <= Step(s, op).done
  {
  }

  /** A member that is not being released stays a member, uncancelled, until its key is notified. */
  lemma MemberStep(s: State, op: Op, w: Waiter)
    requires Inv(s) && w in Members(s, w.key) && op != OpRelease(w)
    ensures Wakes(op, w.key) ==> w.ctx in Step(s, op).done
    ensures !Wakes(op, w.key) ==> w in Members(Step(s, op), w.key) && w.ctx !in Step(s, op).done
  {
    StepKeepsInv(s, op);
    assert KeyOk(s, w.key) && KeyOk(Step(s, op), w.key);
  }

  /** The i-th operation of a trace creates this waiter. */
  ghost predicate Creates(ops: seq<Op>, i: nat, w: Waiter) {
    i < |ops| && ops[i].OpNew? && w == NewWaiter(Run(ops[..i]), ops[i].key).1
  }

  ghost predicate WokenBetween(ops: seq<Op>, i: nat, key: string) {
    exists j :: i < j < |ops| && Wakes(ops[j], key)
  }

  /** An unreleased waiter is woken if and only if its key was notified, or all were reset, after its creation. */
  lemma {:induction false} WokenIffNotified(ops: seq<Op>, i: nat, w: Waiter)
    requires Creates(ops, i, w)
    requires forall j :: i < j < |ops| ==> ops[j] != OpRelease(w)
    ensures w.ctx in Run(ops).done <==> WokenBetween(ops, i, w.key)
    ensures !WokenBetween(ops, i, w.key) ==> w in Members(Run(ops), w.key)
    decreases |ops|
  {
    var n := |ops| - 1;
    var before := ops[..n];
    RunKeepsInv(before);
    if i == n {
      NewWaiterKeepsInv(Run(before), w.key);
    } else {
      assert before[..i] == ops[..i];
      WokenIffNotified(before, i, w);
      WokenLater(ops, i, w.key);
      DoneStays(Run(before), ops[n]);
      if !WokenBetween(before, i, w.key) {
        MemberStep(Run(before), ops[n], w);
      }
    }
  }

  lemma WokenLater(ops: seq<Op>, i: nat, key: string)
    requires i < |ops| - 1
    ensures WokenBetween(ops, i, key) <==>
      WokenBetween(ops[..|ops| - 1], i, key) || Wakes(ops[|ops| - 1], key)
  {
    var before := ops[..|ops| - 1];
    if WokenBetween(before, i, key) {
      var j :| i < j < |before| && Wakes(before[j], key);
      assert Wakes(ops[j], key);
    }
    if WokenBetween(ops, i, key) && !Wakes(ops[|ops| - 1], key) {
      var j :| i < j < |ops| && Wakes(ops[j], key);
      assert Wakes(before[j], key);
    }
  }

  /**
   * A release only ever cancels the context of its own waiter, every other member stays
   * uncancelled, and the release of a waiter whose generation has ended changes nothing.
   */
  lemma ReleaseSparesOthers(s: State, w: Waiter, other: Waiter)
    requires Inv(s) && other != w
    ensures Release(s, w).done <= s.done + {w.ctx}
    ensures other in Members(s, other.key) ==>
      other in Members(Release(s, w), other.key) && other.ctx !in Release(s, w).done
    ensures w.ctx in s.done ==> Release(s, w) == s
    ensures Release(Release(s, w), w) == Release(s, w)
  {
    if other in Members(s, other.key) { MemberStep(s, OpRelease(w), other); }
    assert KeyOk(s, w.key);
  }

  /** A registered waiter that is released leaves its generation, which is cancelled with its last waiter. */
  lemma ReleaseEndsGeneration(s: State, w: Waiter)
    requires Inv(s) && w in Members(s, w.key)
    ensures var s' := Release(s, w);
      && Members(s', w.key) == Members(s, w.key) - {w}
      && s'.done == (if Members(s, w.key) == {w} then s.done + {w.ctx} else s.done)
      && (w.key in s'.waiters <==> Members(s, w.key) != {w})
      && (forall k :: k != w.key ==> Members(s', k) == Members(s, k))
  {
    assert KeyOk(s, w.key);
    ReleaseKeepsInv(s, w);
    assert KeyOk(Release(s, w), w.key);
  }

  /** A new waiter shares the context of its key's live generation, or has a new one. */
  lemma NewWaiterJoins(s: State, key: string)
    requires Inv(s)
    ensures var (s', w) := NewWaiter(s, key);
      && w.key == key && w.id == s.nextWaiter && Members(s', key) == Members(s, key) + {w} && s'.done == s.done
      && (forall other :: other in Members(s, key) ==> other.ctx == w.ctx)
      && (forall k :: k != key ==> Members(s', k) == Members(s, k))
  {
    assert KeyOk(s, key);
  }
}

/** The notifier as an object whose methods update its maps in place. */
module Notifiers {
  import S = NotifierSpec

  class Notifier {
    var waiters: map<string, S.Waiter>
    var waiterMap: map<string, set<S.Waiter>>
    var done: set<nat>
    var nextWaiter: nat
    var nextCtx: nat

    ghost function View(): S.State
      reads this
    {
      S.State(waiters, waiterMap, done, nextWaiter, nextCtx)
    }

    constructor ()
      ensures View() == S.INITIAL
    {
      waiters, waiterMap, done, nextWaiter, nextCtx := map[], map[], {}, 0, 0;
    }

    method NewWaiter(key: string) returns (w: S.Waiter)
      requires S.Inv(View())
      modifies this
      ensures (View(), w) == S.NewWaiter(old(View()), key)
    {
      if key in waiters {
        w := S.Waiter(nextWaiter, key, waiters[key].ctx);
        assert S.KeyOk(View(), key);
        waiterMap := waiterMap[key := waiterMap[key] + {w}];
      } else {
        w := S.Waiter(nextWaiter, key, nextCtx);
        nextCtx := nextCtx + 1;
        waiters := waiters[key := w];
        if key !in waiterMap {
          waiterMap := waiterMap[key := {}];
        }
        assert waiterMap[key] == S.Members(old(View()), key);
        waiterMap := waiterMap[key := waiterMap[key] + {w}];
        assert waiterMap == old(waiterMap)[key := S.Members(old(View()), key) + {w}];
      }
      nextWaiter := nextWaiter + 1;
    }

    method Reset()
      modifies this
      ensures View() == S.Reset(old(View()))
    {
      var keys := waiters.Keys;
      while keys != {}
        invariant keys <= waiters.Keys
        invariant waiters == old(waiters) && waiterMap == old(waiterMap)
        invariant nextWaiter == old(nextWaiter) && nextCtx == old(nextCtx)
        invariant done == old(done) + set k | k in waiters && k !in keys :: waiters[k].ctx
        decreases keys
      {
        var k :| k in keys;
        done := done + {waiters[k].ctx};
        keys := keys - {k};
      }
      waiters, waiterMap := map[], map[];
    }

    method Release(w: S.Waiter)
      modifies this
      ensures View() == S.Release(old(View()), w)
    {
      if w.key in waiterMap && w in waiterMap[w.key] {
        waiterMap := waiterMap[w.key := waiterMap[w.key] - {w}];
        if waiterMap[w.key] == {} {
          waiters := waiters - {w.key};
          done := done + {w.ctx};
        }
      }
    }

    method Notify(key: string)
      requires S.Inv(View())
      modifies this
      ensures View() == S.Notify(old(View()), key) && S.Inv(View())
    {
      S.NotifyKeepsInv(View(), key);
      assert S.KeyOk(View(), key);
      if key in waiters {
        var w := waiters[key];
        done := done + {w.ctx};
        waiters := waiters - {w.key};
        waiterMap := waiterMap - {w.key};
      }
    }
  }
}
