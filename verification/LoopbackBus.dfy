/**
 * The in-process message bus. Publishing appends to a queue; one processing loop takes messages
 * off it, snapshots the subscriptions of their subject and then, without the lock, offers the
 * message to each of them. Everything else interleaves with these sends.
 */
module BusSpec {
  import opened Options

  datatype Subscription = Subscription(id: nat, subject: string)

  /** A message the loop is sending, and the subscriptions it still has to be offered to. */
  datatype Flight = Flight(index: nat, remaining: set<Subscription>)

  /**
   * `subscriptions`, `stopping` and `incoming` are the client's fields, messages being numbered by
   * their place in `published`. `snapshots`, `received` and `dropped` record what happened:
   * snapshots[i] are the subscriptions present when message i was dequeued.
   */
  datatype State = State(
    subscriptions: Option<map<string, set<Subscription>>>,
    stopping: bool,
    incoming: seq<nat>,
    flight: Option<Flight>,
    nextId: nat,
    published: seq<string>,
    snapshots: seq<set<Subscription>>,
    received: map<Subscription, seq<nat>>,
    dropped: set<(nat, Subscription)>)

  const INITIAL := State(Some(map[]), false, [], None, 0, [], [], map[], {})

  predicate BadSubject(subject: string) {
    (|subject| > 0 && subject[|subject| - 1] == '.') || ' ' in subject
  }

  function Subscribers(s: State, subject: string): set<Subscription> {
    if s.subscriptions.Some? && subject in s.subscriptions.value then s.subscriptions.value[subject] else {}
  }

  function Received(s: State, sub: Subscription): seq<nat> {
    if sub in s.received then s.received[sub] else []
  }

  function Publish(s: State, subject: string): State {
    if BadSubject(subject) || s.subscriptions.None? then s
    else s.(incoming := s.incoming + [|s.published|], published := s.published + [subject])
  }

  function Subscribe(s: State, subject: string): State {
    if BadSubject(subject) || s.subscriptions.None? then s
    else
      var subs := Subscribers(s, subject) + {Subscription(s.nextId, subject)};
      s.(subscriptions := Some(s.subscriptions.value[subject := subs]), nextId := s.nextId + 1)
  }

  function Unsubscribe(s: State, sub: Subscription): State {
    if s.subscriptions.None? || sub.subject !in s.subscriptions.value then s
    else
      var subs := s.subscriptions.value[sub.subject] - {sub};
      s.(subscriptions := Some(if subs == {} then s.subscriptions.value - {sub.subject}
                               else s.subscriptions.value[sub.subject := subs]))
  }

  /** The loop dequeues the next message when it is idle. */
  function Dequeue(s: State): State
    requires forall k :: 0 <= k < |s.incoming| ==> s.incoming[k] < |s.published|
  {
    if s.flight.Some? || s.stopping || s.incoming == [] then s
    else
      var i := s.incoming[0];
      var subs := Subscribers(s, s.published[i]);
      s.(incoming := s.incoming[1..],
         flight := if subs == {} then None else Some(Flight(i, subs)),
         snapshots := s.snapshots + [subs])
  }

  /** A send never blocks: a full channel misses the message. */
  function Offer(s: State, sub: Subscription, full: bool): State {
    if s.flight.None? || sub !in s.flight.value.remaining then s
    else
      var f := s.flight.value;
      var rest := f.remaining - {sub};
      s.(flight := if rest == {} then None else Some(f.(remaining := rest)),
         received := if full then s.received else s.received[sub := Received(s, sub) + [f.index]],
         dropped := if full then s.dropped + {(f.index, sub)} else s.dropped)
  }

  function Close(s: State): State {
    s.(subscriptions := None, stopping := true, incoming := [])
  }

  datatype Step =
    | StepPublish(subject: string)
    | StepSubscribe(subject: string)
    | StepUnsubscribe(sub: Subscription)
    | StepDequeue
    | StepOffer(sub: Subscription, full: bool)
    | StepClose

  function Next(s: State, step: Step): State
    requires forall k :: 0 <= k < |s.incoming| ==> s.incoming[k] < |s.published|
  {
    match step
    case StepPublish(subject) => Publish(s, subject)
    case StepSubscribe(subject) => Subscribe(s, subject)
    case StepUnsubscribe(sub) => Unsubscribe(s, sub)
    case StepDequeue => Dequeue(s)
    case StepOffer(sub, full) => Offer(s, sub, full)
    case StepClose => Close(s)
  }

  function Run(steps: seq<Step>): (s: State)
    ensures forall k :: 0 <= k < |s.incoming| ==> s.incoming[k] < |s.published|
  {
    if steps == [] then INITIAL else Next(Run(steps[..|steps| - 1]), steps[|steps| - 1])
  }

  // ---- Invariant ----

  /** No subject keeps an empty set of subscribers. */
  ghost predicate SubscriptionsOk(s: State) {
    s.subscriptions.Some? ==> forall subject :: subject in s.subscriptions.value ==>
      && s.subscriptions.value[subject] != {}
      && (forall sub :: sub in s.subscriptions.value[subject] ==> sub.subject == subject && sub.id < s.nextId)
  }

  /** Until the bus is closed the queue holds exactly the messages that were not dequeued yet. */
  ghost predicate QueueOk(s: State) {
    && |s.snapshots| <= |s.published|
    && (s.stopping <==> s.subscriptions.None?)
    && (if s.stopping then s.incoming == []
        else |s.incoming| == |s.published| - |s.snapshots|
             && forall i :: 0 <= i < |s.incoming| ==> s.incoming[i] == |s.snapshots| + i)
    && (s.flight.Some? ==>
          && |s.snapshots| > 0 && s.flight.value.index == |s.snapshots| - 1 && s.flight.value.remaining != {}
          && s.flight.value.remaining <= s.snapshots[|s.snapshots| - 1])
    && (forall i, sub :: 0 <= i < |s.snapshots| && sub in s.snapshots[i] ==> sub.subject == s.published[i])
  }

  predicate Awaiting(s: State, i: nat, sub: Subscription) {
    s.flight.Some? && s.flight.value.index == i && sub in s.flight.value.remaining
  }

  /** What a subscription got is in order, and is exactly what it was present for and not too slow for. */
  ghost predicate ReceivedOk(s: State, sub: Subscription) {
    var r := Received(s, sub);
    && (forall a, b :: 0 <= a < b < |r| ==> r[a] < r[b])
    && (forall i: nat :: i in r <==>
          i < |s.snapshots| && sub in s.snapshots[i] && (i, sub) !in s.dropped && !Awaiting(s, i, sub))
    && (forall i: nat :: (i, sub) in s.dropped ==> i < |s.snapshots| && sub in s.snapshots[i] && !Awaiting(s, i, sub))
  }

  ghost predicate Inv(s: State) {
    SubscriptionsOk(s) && QueueOk(s) && forall sub :: ReceivedOk(s, sub)
  }

  lemma PublishKeepsInv(s: State, subject: string)
    requires Inv(s)
    ensures Inv(Publish(s, subject))
  {
    forall sub ensures ReceivedOk(Publish(s, subject), sub) {
      assert ReceivedOk(s, sub);
    }
  }

  lemma SubscribeKeepsInv(s: State, subject: string)
    requires Inv(s)
    ensures Inv(Subscribe(s, subject))
  {
    var s' := Subscribe(s, subject);
    if s' != s {
      assert Subscription(s.nextId, subject) in Subscribers(s', subject);
    }
    forall sub ensures ReceivedOk(s', sub) {
      assert ReceivedOk(s, sub);
    }
  }

  lemma UnsubscribeKeepsInv(s: State, sub: Subscription)
    requires Inv(s)
    ensures Inv(Unsubscribe(s, sub))
  {
    forall other ensures ReceivedOk(Unsubscribe(s, sub), other) {
      assert ReceivedOk(s, other);
    }
  }

  lemma CloseKeepsInv(s: State)
    requires Inv(s)
    ensures Inv(Close(s))
  {
    forall sub ensures ReceivedOk(Close(s), sub) {
      assert ReceivedOk(s, sub);
    }
  }

  lemma DequeueKeepsReceived(s: State, sub: Subscription)
    requires Inv(s)
    ensures ReceivedOk(Dequeue(s), sub)
  {
    assert ReceivedOk(s, sub);
  }

  lemma DequeueKeepsInv(s: State)
    requires Inv(s)
    ensures Inv(Dequeue(s))
  {
    forall sub ensures ReceivedOk(Dequeue(s), sub) {
      DequeueKeepsReceived(s, sub);
    }
  }

  lemma OfferToOther(s: State, sub: Subscription, full: bool, other: Subscription)
    requires Inv(s) && other != sub
    ensures ReceivedOk(Offer(s, sub, full), other)
  {
    assert ReceivedOk(s, other);
  }

  lemma OfferToIt(s: State, sub: Subscription, full: bool)
    requires Inv(s) && s.flight.Some? && sub in s.flight.value.remaining
    ensures ReceivedOk(Offer(s, sub, full), sub)
  {
    assert ReceivedOk(s, sub);
    var s', index, r := Offer(s, sub, full), s.flight.value.index, Received(s, sub);
    var r' := Received(s', sub);
    assert r' == if full then r else r + [index];
    assert Awaiting(s, index, sub);
    forall a | 0 <= a < |r| ensures r[a] < index {
      assert r[a] in r;
    }
    assert forall a, b :: 0 <= a < b < |r'| ==> r'[a] < r'[b];
    forall i: nat
      ensures i in r' <==>
        i < |s'.snapshots| && sub in s'.snapshots[i] && (i, sub) !in s'.dropped && !Awaiting(s', i, sub)
    {
      if i == index {
        assert (i, sub) !in s.dropped && sub in s.snapshots[i];
        assert i in r' <==> !full;
      } else {
        assert i in r' <==> i in r;
        assert Awaiting(s', i, sub) <==> Awaiting(s, i, sub);
      }
    }
  }

  lemma OfferKeepsInv(s: State, sub: Subscription, full: bool)
    requires Inv(s)
    ensures Inv(Offer(s, sub, full))
  {
    forall other ensures ReceivedOk(Offer(s, sub, full), other) {
      if other != sub {
        OfferToOther(s, sub, full, other);
      } else if s.flight.Some? && sub in s.flight.value.remaining {
        OfferToIt(s, sub, full);
      }
    }
  }

  lemma StepKeepsInv(s: State, step: Step)
    requires Inv(s)
    ensures Inv(Next(s, step))
  {
    match step
    case StepPublish(subject) => PublishKeepsInv(s, subject);
    case StepSubscribe(subject) => SubscribeKeepsInv(s, subject);
    case StepUnsubscribe(sub) => UnsubscribeKeepsInv(s, sub);
    case StepDequeue => DequeueKeepsInv(s);
    case StepOffer(sub, full) => OfferKeepsInv(s, sub, full);
    case StepClose => CloseKeepsInv(s);
  }

  lemma {:induction false} RunKeepsInv(steps: seq<Step>)
    ensures Inv(Run(steps))
  {
    if steps != [] {
      RunKeepsInv(steps[..|steps| - 1]);
      StepKeepsInv(Run(steps[..|steps| - 1]), steps[|steps| - 1]);
    }
  }

  /** All sends of the message in flight at once, to the subscriptions of `now`; those in `full` miss it. */
  function OfferSome(s: State, now: set<Subscription>, full: set<Subscription>): State
    requires s.flight.Some? && now <= s.flight.value.remaining
  {
    var f := s.flight.value;
    s.(flight := if now == f.remaining then None else Some(f.(remaining := f.remaining - now)),
       received := map sub | sub in s.received.Keys + (now - full) ::
         if sub in now - full then Received(s, sub) + [f.index] else Received(s, sub),
       dropped := s.dropped + set sub | sub in now * full :: (f.index, sub))
  }

  lemma OfferNone(s: State, full: set<Subscription>)
    requires s.flight.Some? && s.flight.value.remaining != {}
    ensures OfferSome(s, {}, full) == s
  {
    var s' := OfferSome(s, {}, full);
    assert s'.received == s.received;
    assert s.flight.value.remaining - {} == s.flight.value.remaining;
    assert s'.dropped == s.dropped;
  }

  /** The order of the sends does not matter: one more send after some of them. */
  lemma OfferOneMore(s: State, now: set<Subscription>, full: set<Subscription>, sub: Subscription)
    requires s.flight.Some? && now < s.flight.value.remaining && sub in s.flight.value.remaining - now
    ensures Offer(OfferSome(s, now, full), sub, sub in full) == OfferSome(s, now + {sub}, full)
  {
    var a, b := Offer(OfferSome(s, now, full), sub, sub in full), OfferSome(s, now + {sub}, full);
    var rem := s.flight.value.remaining;
    assert rem - now - {sub} == rem - (now + {sub});
    assert rem - (now + {sub}) == {} <==> now + {sub} == rem;
    assert a.received == b.received;
    assert a.dropped == b.dropped;
  }

  // ---- Properties of every run ----

  /** A subscription receives messages on its own subject, in publication order and each at most once. */
  lemma DeliveryIsOrdered(steps: seq<Step>, sub: Subscription)
    ensures var s, r := Run(steps), Received(Run(steps), sub);
      && (forall a, b :: 0 <= a < b < |r| ==> r[a] < r[b])
      && (forall a :: 0 <= a < |r| ==> r[a] < |s.published| && s.published[r[a]] == sub.subject)
  {
    RunKeepsInv(steps);
    var s, r := Run(steps), Received(Run(steps), sub);
    assert ReceivedOk(s, sub);
    forall a | 0 <= a < |r| ensures r[a] < |s.published| && s.published[r[a]] == sub.subject {
      assert r[a] in r;
    }
  }

  /**
   * A published message is missing exactly when it was not dequeued yet, or never will be because the bus
   * was closed, the subscription was absent when it was dequeued, its channel was full, or the send is
   * still to come.
   */
  lemma MissingOnlyFor(steps: seq<Step>, sub: Subscription, i: nat)
    requires i < |Run(steps).published|
    ensures var s := Run(steps);
      i !in Received(s, sub) <==>
        || (i >= |s.snapshots| && (s.stopping || i in s.incoming))
        || (i < |s.snapshots| && (sub !in s.snapshots[i] || (i, sub) in s.dropped || Awaiting(s, i, sub)))
  {
    RunKeepsInv(steps);
    var s := Run(steps);
    assert ReceivedOk(s, sub);
    if i >= |s.snapshots| && !s.stopping { assert s.incoming[i - |s.snapshots|] == i; }
  }

  /** No subject ever keeps an empty set of subscribers. */
  lemma NoEmptySubject(steps: seq<Step>, subject: string)
    ensures var s := Run(steps);
      s.subscriptions.Some? && subject in s.subscriptions.value ==> s.subscriptions.value[subject] != {}
  {
    RunKeepsInv(steps);
  }

  // ---- Presence of a subscription ----

  predicate Present(s: State, sub: Subscription) {
    sub in Subscribers(s, sub.subject)
  }

  /** A subscription appears when it is made and disappears when it is cancelled or the bus closes. */
  lemma PresenceStep(s: State, step: Step, sub: Subscription)
    requires Inv(s)
    ensures Present(Next(s, step), sub) <==>
      match step
      case StepSubscribe(subject) =>
        Present(s, sub) || (sub == Subscription(s.nextId, subject) && !s.stopping && !BadSubject(subject))
      case StepUnsubscribe(gone) => Present(s, sub) && sub != gone
      case StepClose => false
      case _ => Present(s, sub)
  {
  }

  lemma {:induction false} AbsentStaysAbsent(steps: seq<Step>, n: nat, sub: Subscription)
    requires n <= |steps| && sub.id < Run(steps[..n]).nextId && !Present(Run(steps[..n]), sub)
    ensures sub.id < Run(steps).nextId && !Present(Run(steps), sub)
    ensures Run(steps[..n]).snapshots <= Run(steps).snapshots
    ensures forall i :: |Run(steps[..n]).snapshots| <= i < |Run(steps).snapshots| ==> sub !in Run(steps).snapshots[i]
  {
    var last := |steps| - 1;
    if n == |steps| {
      assert steps[..n] == steps;
    } else {
      assert steps[..last][..n] == steps[..n];
      AbsentStaysAbsent(steps[..last], n, sub);
      RunKeepsInv(steps[..last]);
      AbsentStep(Run(steps[..last]), steps[last], sub);
    }
  }

  lemma AbsentStep(s: State, step: Step, sub: Subscription)
    requires Inv(s) && sub.id < s.nextId && !Present(s, sub)
    ensures var s' := Next(s, step);
      && sub.id < s'.nextId && !Present(s', sub) && s.snapshots <= s'.snapshots
      && forall i :: |s.snapshots| <= i < |s'.snapshots| ==> sub !in s'.snapshots[i]
  {
    PresenceStep(s, step, sub);
  }

  /** Once a subscription is cancelled, no message dequeued after that ever reaches it. */
  lemma NothingAfterUnsubscribe(steps: seq<Step>, n: nat, sub: Subscription, i: nat)
    requires n < |steps| && steps[n] == StepUnsubscribe(sub) && sub.id < Run(steps[..n + 1]).nextId
    requires i >= |Run(steps[..n + 1]).snapshots|
    ensures i !in Received(Run(steps), sub)
  {
    RunKeepsInv(steps[..n]);
    assert steps[..n + 1][..n] == steps[..n];
    PresenceStep(Run(steps[..n]), steps[n], sub);
    AbsentStaysAbsent(steps, n + 1, sub);
    RunKeepsInv(steps);
    assert ReceivedOk(Run(steps), sub);
  }

  // ---- What is published, dequeued and dropped ----

  /** A subject is bad if it has a space in it or a dot at its end. */
  lemma BadSubjectMeans(subject: string)
    ensures BadSubject(subject) <==>
      (exists i :: 0 <= i < |subject| && subject[i] == ' ') || (|subject| > 0 && subject[|subject| - 1] == '.')
  {
  }

  /** Publishing queues the message behind all others, until the bus is closed; nothing else publishes. */
  lemma PublishStep(s: State, step: Step)
    requires Inv(s)
    ensures var s' := Next(s, step);
      && (if step.StepPublish? && !BadSubject(step.subject) && !s.stopping
          then s'.published == s.published + [step.subject] && s'.incoming == s.incoming + [|s.published|]
          else s'.published == s.published)
      && (s'.stopping <==> s.stopping || step.StepClose?)
      && (step.StepClose? ==> s'.incoming == [])
  {
  }

  /** An idle loop takes the oldest message, for exactly the subscriptions of its subject that are there. */
  lemma DequeueStep(s: State)
    requires Inv(s) && s.flight.None? && !s.stopping && s.incoming != []
    ensures var s', subject := Dequeue(s), s.published[s.incoming[0]];
      && s'.incoming == s.incoming[1..] && |s'.snapshots| == |s.snapshots| + 1
      && s'.snapshots[|s.snapshots|] == Subscribers(s, subject)
      && (forall sub :: sub in Subscribers(s, subject) ==> Awaiting(s', s.incoming[0], sub))
  {
  }

  /** A message is offered once: it is received, or dropped if and only if the channel is full. */
  lemma OfferStep(s: State, sub: Subscription, full: bool, i: nat)
    requires Awaiting(s, i, sub)
    ensures var s' := Offer(s, sub, full);
      && !Awaiting(s', i, sub)
      && Received(s', sub) == (if full then Received(s, sub) else Received(s, sub) + [i])
      && s'.dropped == (if full then s.dropped + {(i, sub)} else s.dropped)
      && (forall other :: other != sub ==>
            Received(s', other) == Received(s, other) && (Awaiting(s', i, other) <==> Awaiting(s, i, other)))
  {
    var left := s.flight.value.remaining;
    forall other | other != sub ensures Awaiting(Offer(s, sub, full), i, other) <==> Awaiting(s, i, other) {
      assert other in left - {sub} <==> other in left;
    }
  }

  /** Nothing is dropped but by an offer to a full channel. */
  lemma DroppedOnlyWhenFull(s: State, step: Step, i: nat, sub: Subscription)
    requires Inv(s) && (i, sub) in Next(s, step).dropped && (i, sub) !in s.dropped
    ensures step == StepOffer(sub, true) && Awaiting(s, i, sub)
  {
  }
}

/** The bus client as an object. */
module LoopbackBus {
  import opened Options
  import S = BusSpec

  datatype Error = Ok | BadSubject | ConnectionClosed

  class LoopbackNatsClient {
    var subscriptions: Option<map<string, set<S.Subscription>>>
    var stopping: bool
    var incoming: seq<nat>
    var nextId: nat
    var published: seq<string>
    var received: map<S.Subscription, seq<nat>>
    ghost var flight: Option<S.Flight>
    ghost var snapshots: seq<set<S.Subscription>>
    ghost var dropped: set<(nat, S.Subscription)>

    ghost function View(): S.State
      reads this
    {
      S.State(subscriptions, stopping, incoming, flight, nextId, published, snapshots, received, dropped)
    }

    constructor ()
      ensures View() == S.INITIAL
    {
      subscriptions, stopping, incoming, nextId, published, received := Some(map[]), false, [], 0, [], map[];
      flight, snapshots, dropped := None, [], {};
    }

    method Publish(subject: string) returns (err: Error)
      modifies this
      ensures View() == S.Publish(old(View()), subject)
      ensures err.Ok? <==> View() != old(View())
      ensures err.BadSubject? <==> ' ' in subject || (subject != "" && subject[|subject| - 1] == '.')
      ensures err.Ok? <==> !err.BadSubject? && old(subscriptions).Some?
    {
      if S.BadSubject(subject) {
        return BadSubject;
      }
      if subscriptions.None? {
        return ConnectionClosed;
      }
      incoming := incoming + [|published|];
      published := published + [subject];
      assert |published| == |old(published)| + 1;
      return Ok;
    }

    method Subscribe(subject: string) returns (err: Error, sub: Option<S.Subscription>)
      modifies this
      ensures View() == S.Subscribe(old(View()), subject)
      ensures err.Ok? <==> sub.Some?
      ensures sub.Some? ==> sub.value in S.Subscribers(View(), subject)
      ensures err.BadSubject? <==> ' ' in subject || (subject != "" && subject[|subject| - 1] == '.')
      ensures err.Ok? <==> !err.BadSubject? && old(subscriptions).Some?
    {
      if S.BadSubject(subject) {
        return BadSubject, None;
      }
      if subscriptions.None? {
        return ConnectionClosed, None;
      }
      var s := S.Subscription(nextId, subject);
      var subs := if subject in subscriptions.value then subscriptions.value[subject] else {};
      subscriptions := Some(subscriptions.value[subject := subs + {s}]);
      nextId := nextId + 1;
      return Ok, Some(s);
    }

    method Unsubscribe(sub: S.Subscription)
      modifies this
      ensures View() == S.Unsubscribe(old(View()), sub)
    {
      if subscriptions.Some? && sub.subject in subscriptions.value {
        var subs := subscriptions.value[sub.subject] - {sub};
        if subs == {} {
          subscriptions := Some(subscriptions.value - {sub.subject});
        } else {
          subscriptions := Some(subscriptions.value[sub.subject := subs]);
        }
      }
    }

    /** One turn of the processing loop without interference; the channels of `full` cannot take the message. */
    method ProcessMessage(full: set<S.Subscription>)
      requires S.Inv(View()) && flight.None? && !stopping && incoming != []
      modifies this
      ensures var s := S.Dequeue(old(View()));
        View() == if s.flight.None? then s else S.OfferSome(s, s.flight.value.remaining, full)
    {
      var i := incoming[0];
      incoming := incoming[1..];
      var subject := published[i];
      if subscriptions.None? || subject !in subscriptions.value {
        snapshots := snapshots + [{}];
        return;
      }
      var channels := subscriptions.value[subject];
      snapshots, flight := snapshots + [channels], Some(S.Flight(i, channels));
      SendToChannels(i, channels, full);
    }

    method SendToChannels(i: nat, subs: set<S.Subscription>, full: set<S.Subscription>)
      requires subs != {} && flight == Some(S.Flight(i, subs))
      modifies this`received, this`flight, this`dropped
      ensures View() == S.OfferSome(old(View()), subs, full)
    {
      ghost var s, sent := View(), {};
      S.OfferNone(s, full);
      var channels := subs;
      while channels != {}
        invariant channels == subs - sent && sent <= subs
        invariant View() == S.OfferSome(s, sent, full)
        decreases channels
      {
        var sub :| sub in channels;
        S.OfferOneMore(s, sent, full, sub);
        if sub !in full {
          received := received[sub := (if sub in received then received[sub] else []) + [i]];
        } else {
          dropped := dropped + {(i, sub)};
        }
        channels, sent := channels - {sub}, sent + {sub};
        flight := if channels == {} then None else Some(S.Flight(i, channels));
      }
    }

    method Close()
      modifies this
      ensures View() == S.Close(old(View()))
    {
      subscriptions := None;
      stopping := true;
      incoming := [];
    }
  }
}
