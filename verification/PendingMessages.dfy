/**
 * Messages for a session whose client is away are queued and replayed when the session is
 * resumed. The replay first takes the whole queue and sends it later, so other messages can
 * arrive in between; what cannot be sent is queued again.
 */
module PendingSpec {
  import opened Options

  /** `id` tells messages apart; the two flags are what the queue looks at. */
  datatype Message = Message(id: nat, chatRefresh: bool, participantsUpdate: bool)

  datatype Queue = Queue(pending: seq<Message>, hasChat: bool, hasParticipants: bool)

  const EMPTY := Queue([], false, false)

  predicate Drops(q: Queue, m: Message) {
    m.chatRefresh && q.hasChat
  }

  function Store(q: Queue, m: Message): Queue {
    if Drops(q, m) then q
    else Queue(q.pending + [m], q.hasChat || m.chatRefresh, q.hasParticipants || m.participantsUpdate)
  }

  /** The queue and what happened to the messages: `delivered` and `dropped` grow at the end. */
  datatype Session = Session(client: Option<nat>, q: Queue, delivered: seq<Message>, dropped: seq<Message>)

  /** `accepted` is the answer of the client's own send. */
  function Send(s: Session, m: Message, accepted: bool): Session {
    if s.client.Some? && accepted then s.(delivered := s.delivered + [m])
    else s.(q := Store(s.q, m), dropped := if Drops(s.q, m) then s.dropped + [m] else s.dropped)
  }

  function SendAll(s: Session, ms: seq<Message>, accepted: seq<bool>): Session
    requires |ms| == |accepted|
    decreases |ms|
  {
    if ms == [] then s
    else
      var n := |ms| - 1;
      Send(SendAll(s, ms[..n], accepted[..n]), ms[n], accepted[n])
  }

  // ---- The flags describe the queue ----

  predicate HasChat(ms: seq<Message>) {
    exists i :: 0 <= i < |ms| && ms[i].chatRefresh
  }

  predicate HasParticipants(ms: seq<Message>) {
    exists i :: 0 <= i < |ms| && ms[i].participantsUpdate
  }

  /** Both flags are exact and there is at most one chat refresh. */
  predicate QueueOk(q: Queue) {
    && (q.hasChat <==> HasChat(q.pending))
    && (q.hasParticipants <==> HasParticipants(q.pending))
    && (forall i, j :: 0 <= i < j < |q.pending| ==> !(q.pending[i].chatRefresh && q.pending[j].chatRefresh))
  }

  lemma StoreKeepsQueueOk(q: Queue, m: Message)
    requires QueueOk(q)
    ensures QueueOk(Store(q, m))
    ensures Drops(q, m) <==> m.chatRefresh && HasChat(q.pending)
  {
    if !Drops(q, m) {
      var ms := q.pending + [m];
      assert ms[|q.pending|] == m;
      assert HasChat(q.pending) ==> HasChat(ms) by {
        if HasChat(q.pending) { var i :| 0 <= i < |q.pending| && q.pending[i].chatRefresh; assert ms[i].chatRefresh; }
      }
      assert HasParticipants(q.pending) ==> HasParticipants(ms) by {
        if HasParticipants(q.pending) {
          var i :| 0 <= i < |q.pending| && q.pending[i].participantsUpdate;
          assert ms[i].participantsUpdate;
        }
      }
    }
  }

  lemma {:induction false} SendAllKeepsQueueOk(s: Session, ms: seq<Message>, accepted: seq<bool>)
    requires QueueOk(s.q) && |ms| == |accepted|
    ensures QueueOk(SendAll(s, ms, accepted).q)
    decreases |ms|
  {
    if ms != [] {
      var n := |ms| - 1;
      SendAllKeepsQueueOk(s, ms[..n], accepted[..n]);
      StoreKeepsQueueOk(SendAll(s, ms[..n], accepted[..n]).q, ms[n]);
    }
  }

  // ---- Conservation ----

  function Accounted(s: Session): multiset<Message> {
    multiset(s.delivered) + multiset(s.q.pending) + multiset(s.dropped)
  }

  lemma SendAccounts(s: Session, m: Message, accepted: bool)
    ensures Accounted(Send(s, m, accepted)) == Accounted(s) + multiset{m}
  {
  }

  lemma LastCounts(ms: seq<Message>)
    requires ms != []
    ensures multiset(ms) == multiset(ms[..|ms| - 1]) + multiset{ms[|ms| - 1]}
  {
    assert ms == ms[..|ms| - 1] + [ms[|ms| - 1]];
  }

  lemma {:induction false} SendAllAccounts(s: Session, ms: seq<Message>, accepted: seq<bool>)
    requires |ms| == |accepted|
    ensures Accounted(SendAll(s, ms, accepted)) == Accounted(s) + multiset(ms)
    decreases |ms|
  {
    if ms != [] {
      var n := |ms| - 1;
      SendAllAccounts(s, ms[..n], accepted[..n]);
      SendAccounts(SendAll(s, ms[..n], accepted[..n]), ms[n], accepted[n]);
      LastCounts(ms);
    }
  }

  // ---- Runs ----

  /** `handed` are all messages so far, `batches` the queues taken for replay and not sent yet. */
  datatype State = State(s: Session, handed: seq<Message>, batches: seq<seq<Message>>)

  const INITIAL := State(Session(None, EMPTY, [], []), [], [])

  datatype Step =
    | StepSetClient(client: Option<nat>)
    | StepSend(m: Message, accepted: bool)
    | StepTake
    | StepReplay(i: nat, answers: seq<bool>)

  function Next(st: State, step: Step): State {
    match step
    case StepSetClient(c) => st.(s := st.s.(client := c))
    case StepSend(m, accepted) => st.(s := Send(st.s, m, accepted), handed := st.handed + [m])
    case StepTake =>
      if st.s.q.pending == [] then st
      else st.(s := st.s.(q := EMPTY), batches := st.batches + [st.s.q.pending])
    case StepReplay(i, accepted) =>
      if i >= |st.batches| || |accepted| != |st.batches[i]| then st
      else st.(s := SendAll(st.s, st.batches[i], accepted), batches := st.batches[..i] + st.batches[i + 1..])
  }

  function Run(steps: seq<Step>): State {
    if steps == [] then INITIAL else Next(Run(steps[..|steps| - 1]), steps[|steps| - 1])
  }

  function InBatches(bs: seq<seq<Message>>): multiset<Message> {
    if bs == [] then multiset{} else InBatches(bs[..|bs| - 1]) + multiset(bs[|bs| - 1])
  }

  lemma {:induction false} InBatchesConcat(a: seq<seq<Message>>, b: seq<seq<Message>>)
    ensures InBatches(a + b) == InBatches(a) + InBatches(b)
  {
    if b == [] {
      assert a + b == a;
    } else {
      var n := |b| - 1;
      assert (a + b)[..|a + b| - 1] == a + b[..n];
      InBatchesConcat(a, b[..n]);
    }
  }

  lemma InBatchesOne(b: seq<Message>)
    ensures InBatches([b]) == multiset(b)
  {
    assert [b][..0] == [];
  }

  lemma InBatchesSplit(bs: seq<seq<Message>>, i: nat)
    requires i < |bs|
    ensures InBatches(bs) == InBatches(bs[..i] + bs[i + 1..]) + multiset(bs[i])
  {
    var front, one, back := bs[..i], [bs[i]], bs[i + 1..];
    assert bs == front + (one + back);
    InBatchesConcat(front, one + back);
    InBatchesConcat(one, back);
    InBatchesConcat(front, back);
    InBatchesOne(bs[i]);
  }

  /** Every message is delivered, queued, dropped or in a batch, and only chat refreshes are dropped. */
  predicate Conserved(st: State) {
    && multiset(st.handed) == Accounted(st.s) + InBatches(st.batches)
    && (forall m :: m in st.s.dropped ==> m.chatRefresh)
  }

  lemma DroppedAreChats(s: Session, ms: seq<Message>, accepted: seq<bool>)
    requires |ms| == |accepted| && forall m :: m in s.dropped ==> m.chatRefresh
    ensures forall m :: m in SendAll(s, ms, accepted).dropped ==> m.chatRefresh
    decreases |ms|
  {
    if ms != [] { DroppedAreChats(s, ms[..|ms| - 1], accepted[..|ms| - 1]); }
  }

  lemma SendConserves(st: State, m: Message, accepted: bool)
    requires Conserved(st)
    ensures Conserved(Next(st, StepSend(m, accepted)))
  {
    SendAccounts(st.s, m, accepted);
  }

  lemma TakeConserves(st: State)
    requires Conserved(st)
    ensures Conserved(Next(st, StepTake))
  {
    InBatchesConcat(st.batches, [st.s.q.pending]);
    InBatchesOne(st.s.q.pending);
  }

  lemma ReplayConserves(st: State, i: nat, answers: seq<bool>)
    requires Conserved(st)
    ensures Conserved(Next(st, StepReplay(i, answers)))
  {
    if i < |st.batches| && |answers| == |st.batches[i]| {
      SendAllAccounts(st.s, st.batches[i], answers);
      DroppedAreChats(st.s, st.batches[i], answers);
      InBatchesSplit(st.batches, i);
    }
  }

  lemma StepConserves(st: State, step: Step)
    requires Conserved(st) && QueueOk(st.s.q)
    ensures Conserved(Next(st, step)) && QueueOk(Next(st, step).s.q)
  {
    match step
    case StepSetClient(_) =>
    case StepSend(m, accepted) =>
      SendConserves(st, m, accepted);
      StoreKeepsQueueOk(st.s.q, m);
    case StepTake => TakeConserves(st);
    case StepReplay(i, answers) =>
      ReplayConserves(st, i, answers);
      if i < |st.batches| && |answers| == |st.batches[i]| {
        SendAllKeepsQueueOk(st.s, st.batches[i], answers);
      }
  }

  /**
   * In every run, with any number of replays under way and failing at any point, no message is lost
   * or duplicated, only chat refreshes are dropped, and the queue's flags are exact.
   */
  lemma {:induction false} MessagesConserved(steps: seq<Step>)
    ensures Conserved(Run(steps)) && QueueOk(Run(steps).s.q)
  {
    if steps != [] {
      MessagesConserved(steps[..|steps| - 1]);
      StepConserves(Run(steps[..|steps| - 1]), steps[|steps| - 1]);
    }
  }

  // ---- Arrival order ----

  predicate Increasing(ms: seq<Message>) {
    forall i, j :: 0 <= i < j < |ms| ==> ms[i].id < ms[j].id
  }

  /** What a replay puts back is appended to the queue in the order of the batch. */
  lemma {:induction false} SendAllAppends(s: Session, ms: seq<Message>, answers: seq<bool>)
    requires |ms| == |answers|
    ensures var p, p' := s.q.pending, SendAll(s, ms, answers).q.pending;
      && p <= p'
      && (forall m :: m in p'[|p|..] ==> m in ms)
      && (Increasing(ms) ==> Increasing(p'[|p|..]))
    decreases |ms|
  {
    if ms != [] {
      var n := |ms| - 1;
      SendAllAppends(s, ms[..n], answers[..n]);
      var p, p1 := s.q.pending, SendAll(s, ms[..n], answers[..n]).q.pending;
      var p' := SendAll(s, ms, answers).q.pending;
      if p' != p1 {
        var rest := p1[|p|..];
        assert p'[|p|..] == rest + [ms[n]];
        if Increasing(ms) {
          assert Increasing(ms[..n]);
          forall m | m in rest ensures m.id < ms[n].id {
            assert m in ms[..n];
          }
        }
      }
    }
  }

  predicate NewerThan(p: seq<Message>, m: Message) {
    forall a :: a in p ==> a.id < m.id
  }

  lemma IncreasingConcat(p: seq<Message>, q: seq<Message>)
    ensures Increasing(p + q) <==>
      Increasing(p) && Increasing(q) && forall b :: b in q ==> NewerThan(p, b)
  {
    var r := p + q;
    if Increasing(r) {
      forall i, j | 0 <= i < j < |p| ensures p[i].id < p[j].id {
        assert r[i] == p[i] && r[j] == p[j];
      }
      forall i, j | 0 <= i < j < |q| ensures q[i].id < q[j].id {
        assert r[|p| + i] == q[i] && r[|p| + j] == q[j];
      }
      forall b | b in q ensures NewerThan(p, b) {
        var k :| 0 <= k < |q| && q[k] == b;
        forall a | a in p ensures a.id < b.id {
          var i :| 0 <= i < |p| && p[i] == a;
          assert r[i].id < r[|p| + k].id;
        }
      }
    } else if Increasing(p) && Increasing(q) {
      var i, j :| 0 <= i < j < |r| && r[i].id >= r[j].id;
      assert r[i] in p && r[j] in q;
    }
  }

  predicate RefusedAt(s: Session, ms: seq<Message>, answers: seq<bool>, i: nat)
    requires i < |ms| == |answers|
  {
    !(s.client.Some? && answers[i])
  }

  /** Some chat refresh of the batch was refused before the message. */
  predicate ChatBefore(s: Session, ms: seq<Message>, answers: seq<bool>, n: nat)
    requires n <= |ms| == |answers|
  {
    exists j :: 0 <= j < n && ms[j].chatRefresh && RefusedAt(s, ms, answers, j)
  }

  /** The message of the batch is refused, and is not dropped as a second chat refresh. */
  predicate GoesBack(s: Session, ms: seq<Message>, answers: seq<bool>, i: nat)
    requires i < |ms| == |answers|
  {
    RefusedAt(s, ms, answers, i)
    && !(ms[i].chatRefresh && (HasChat(s.q.pending) || ChatBefore(s, ms, answers, i)))
  }

  /** The messages that go back among the first n of a batch. */
  function Returned(s: Session, ms: seq<Message>, answers: seq<bool>, n: nat): seq<Message>
    requires n <= |ms| == |answers|
  {
    if n == 0 then []
    else Returned(s, ms, answers, n - 1) + if GoesBack(s, ms, answers, n - 1) then [ms[n - 1]] else []
  }

  lemma HasChatAppend(p: seq<Message>, m: Message)
    ensures HasChat(p + [m]) <==> HasChat(p) || m.chatRefresh
  {
    var q := p + [m];
    if HasChat(p) {
      var i :| 0 <= i < |p| && p[i].chatRefresh;
      assert q[i].chatRefresh;
    }
    assert q[|p|] == m;
  }

  lemma {:induction false} ReturnedChat(s: Session, ms: seq<Message>, answers: seq<bool>, n: nat)
    requires n <= |ms| == |answers|
    ensures HasChat(s.q.pending + Returned(s, ms, answers, n)) <==>
      HasChat(s.q.pending) || ChatBefore(s, ms, answers, n)
  {
    var p := s.q.pending;
    if n == 0 {
      assert p + [] == p;
    } else {
      var before := Returned(s, ms, answers, n - 1);
      ReturnedChat(s, ms, answers, n - 1);
      HasChatAppend(p + before, ms[n - 1]);
      assert p + (before + [ms[n - 1]]) == p + before + [ms[n - 1]];
      assert before + [] == before;
    }
  }

  /** A replay appends to the queue exactly the messages that go back, in the order of the batch. */
  lemma {:induction false} ReplayReturns(s: Session, ms: seq<Message>, answers: seq<bool>, n: nat)
    requires QueueOk(s.q) && n <= |ms| == |answers|
    ensures var s' := SendAll(s, ms[..n], answers[..n]);
      s'.client == s.client && QueueOk(s'.q) && s'.q.pending == s.q.pending + Returned(s, ms, answers, n)
  {
    if n > 0 {
      var s1 := SendAll(s, ms[..n - 1], answers[..n - 1]);
      ReplayReturns(s, ms, answers, n - 1);
      ReturnedChat(s, ms, answers, n - 1);
      StoreKeepsQueueOk(s1.q, ms[n - 1]);
      assert ms[..n][..n - 1] == ms[..n - 1] && answers[..n][..n - 1] == answers[..n - 1];
      assert SendAll(s, ms[..n], answers[..n]) == Send(s1, ms[n - 1], answers[n - 1]);
    }
  }

  /** The messages that are delivered among the first n of a batch. */
  function Delivered(s: Session, ms: seq<Message>, answers: seq<bool>, n: nat): seq<Message>
    requires n <= |ms| == |answers|
  {
    if n == 0 then []
    else Delivered(s, ms, answers, n - 1) + if RefusedAt(s, ms, answers, n - 1) then [] else [ms[n - 1]]
  }

  /** A replay delivers exactly the accepted messages, behind all that were delivered before, in order. */
  lemma {:induction false} ReplayDelivers(s: Session, ms: seq<Message>, answers: seq<bool>, n: nat)
    requires n <= |ms| == |answers|
    ensures var s' := SendAll(s, ms[..n], answers[..n]);
      s'.client == s.client && s'.delivered == s.delivered + Delivered(s, ms, answers, n)
  {
    if n > 0 {
      var s1 := SendAll(s, ms[..n - 1], answers[..n - 1]);
      ReplayDelivers(s, ms, answers, n - 1);
      assert ms[..n][..n - 1] == ms[..n - 1] && answers[..n][..n - 1] == answers[..n - 1];
      assert SendAll(s, ms[..n], answers[..n]) == Send(s1, ms[n - 1], answers[n - 1]);
    }
  }

  /** A message goes to the client if there is one that takes it, and nowhere else then. */
  lemma SendStep(s: Session, m: Message, accepted: bool)
    requires QueueOk(s.q)
    ensures var s' := Send(s, m, accepted);
      if s.client.Some? && accepted then s' == s.(delivered := s.delivered + [m])
      else
        && s'.client == s.client && s'.delivered == s.delivered
        && (if m.chatRefresh && (exists i :: 0 <= i < |s.q.pending| && s.q.pending[i].chatRefresh)
            then s'.q == s.q && s'.dropped == s.dropped + [m]
            else s'.q.pending == s.q.pending + [m] && s'.dropped == s.dropped)
  {
  }

  /** What a step does to the client, the messages handed over and the batches under way. */
  lemma StepsAre(st: State, step: Step)
    ensures var st' := Next(st, step);
      && (step.StepSetClient? ==> st' == st.(s := st.s.(client := step.client)))
      && (step.StepSend? ==> st'.handed == st.handed + [step.m] && st'.batches == st.batches)
      && (step.StepTake? && st.s.q.pending != [] ==>
            && st'.batches == st.batches + [st.s.q.pending] && st'.s.q.pending == []
            && !st'.s.q.hasChat && !st'.s.q.hasParticipants)
      && (step.StepReplay? && step.i < |st.batches| && |step.answers| == |st.batches[step.i]| ==>
            st'.batches == st.batches[..step.i] + st.batches[step.i + 1..])
  {
  }

  /** The queue stays as it is exactly when no message of the batch goes back. */
  lemma {:induction false} NothingReturned(s: Session, ms: seq<Message>, answers: seq<bool>, n: nat)
    requires n <= |ms| == |answers|
    ensures Returned(s, ms, answers, n) == [] <==> forall i :: 0 <= i < n ==> !GoesBack(s, ms, answers, i)
  {
    if n > 0 { NothingReturned(s, ms, answers, n - 1); }
  }

  /** What goes back is newer than everything queued, and is itself in order. */
  predicate BackIsNewer(s: Session, ms: seq<Message>, answers: seq<bool>, n: nat)
    requires n <= |ms| == |answers|
  {
    && (forall i :: 0 <= i < n && GoesBack(s, ms, answers, i) ==> NewerThan(s.q.pending, ms[i]))
    && (forall i, j :: 0 <= i < j < n && GoesBack(s, ms, answers, i) && GoesBack(s, ms, answers, j) ==>
          ms[i].id < ms[j].id)
  }

  lemma {:induction false} ReturnedMembers(s: Session, ms: seq<Message>, answers: seq<bool>, n: nat)
    requires n <= |ms| == |answers|
    ensures forall b :: b in Returned(s, ms, answers, n) <==>
      exists i :: 0 <= i < n && GoesBack(s, ms, answers, i) && ms[i] == b
  {
    if n > 0 { ReturnedMembers(s, ms, answers, n - 1); }
  }

  lemma NewerThanReturned(s: Session, ms: seq<Message>, answers: seq<bool>, n: nat, m: Message)
    requires n <= |ms| == |answers|
    ensures NewerThan(s.q.pending + Returned(s, ms, answers, n), m) <==>
      NewerThan(s.q.pending, m) && forall i :: 0 <= i < n && GoesBack(s, ms, answers, i) ==> ms[i].id < m.id
  {
    var p, back := s.q.pending, Returned(s, ms, answers, n);
    ReturnedMembers(s, ms, answers, n);
    assert forall a :: a in p + back <==> a in p || a in back;
    if NewerThan(p + back, m) {
      forall i | 0 <= i < n && GoesBack(s, ms, answers, i) ensures ms[i].id < m.id {
        assert ms[i] in back;
      }
    }
  }

  lemma {:induction false} ReturnedInOrder(s: Session, ms: seq<Message>, answers: seq<bool>, n: nat)
    requires n <= |ms| == |answers|
    ensures Increasing(s.q.pending + Returned(s, ms, answers, n)) <==>
      Increasing(s.q.pending) && BackIsNewer(s, ms, answers, n)
  {
    var p := s.q.pending;
    if n == 0 {
      assert p + [] == p;
    } else {
      var before := Returned(s, ms, answers, n - 1);
      ReturnedInOrder(s, ms, answers, n - 1);
      NewerThanReturned(s, ms, answers, n - 1, ms[n - 1]);
      IncreasingConcat(p + before, [ms[n - 1]]);
      assert ms[n - 1] in [ms[n - 1]];
      assert p + (before + [ms[n - 1]]) == p + before + [ms[n - 1]];
      assert before + [] == before;
    }
  }

  /**
   * The queue is in arrival order after a replay exactly when it was so before and everything that goes
   * back is newer than everything queued while the batch was under way, and in order itself.
   */
  lemma ReplayKeepsOrder(s: Session, ms: seq<Message>, answers: seq<bool>)
    requires QueueOk(s.q) && |ms| == |answers|
    ensures Increasing(SendAll(s, ms, answers).q.pending) <==>
      Increasing(s.q.pending) && BackIsNewer(s, ms, answers, |ms|)
    ensures SendAll(s, ms, answers).q.pending == s.q.pending <==>
      forall i :: 0 <= i < |ms| ==> !GoesBack(s, ms, answers, i)
  {
    assert ms[..|ms|] == ms && answers[..|ms|] == answers;
    ReplayReturns(s, ms, answers, |ms|);
    ReturnedInOrder(s, ms, answers, |ms|);
    NothingReturned(s, ms, answers, |ms|);
  }

  /** A message queued while a batch is under way ends up in front of what the batch puts back. */
  lemma ArrivalOrderCanBreak()
    ensures var a, b := Message(0, false, false), Message(1, false, false);
      Run([StepSend(a, false), StepTake, StepSend(b, false), StepReplay(0, [false])]).s.q.pending == [b, a]
  {
    var a, b := Message(0, false, false), Message(1, false, false);
    var s1, s2, s3, s4 := StepSend(a, false), StepTake, StepSend(b, false), StepReplay(0, [false]);
    assert [s1, s2, s3, s4][..3] == [s1, s2, s3] && [s1, s2, s3][..2] == [s1, s2];
    assert [s1, s2][..1] == [s1] && [s1][..0] == [];
    assert Run([]) == INITIAL;
    var st1 := Run([s1]);
    assert st1 == Next(INITIAL, s1) && st1.s.q.pending == [a];
    var st2 := Run([s1, s2]);
    assert st2 == Next(st1, s2) && st2.batches == [[a]] && st2.s == Session(None, EMPTY, [], []);
    var st3 := Run([s1, s2, s3]);
    assert st3 == Next(st2, s3) && st3.batches == [[a]] && st3.s.q.pending == [b];
    assert [a][..0] == [] && [false][..0] == [];
    assert SendAll(st3.s, [a], [false]) == Send(SendAll(st3.s, [], []), a, false);
  }

  /** Messages are numbered as they arrive, and none is queued while a batch is under way. */
  predicate Orderly(st: State, step: Step) {
    step.StepSend? ==>
      step.m.id == |st.handed| && (st.batches != [] ==> st.s.client.Some? && step.accepted)
  }

  predicate OrderlyRun(steps: seq<Step>) {
    steps == [] || (OrderlyRun(steps[..|steps| - 1]) && Orderly(Run(steps[..|steps| - 1]), steps[|steps| - 1]))
  }

  predicate NumberedBelow(ms: seq<Message>, n: nat) {
    Increasing(ms) && forall m :: m in ms ==> m.id < n
  }

  predicate InOrder(st: State) {
    && NumberedBelow(st.s.q.pending, |st.handed|)
    && (st.batches != [] ==> |st.batches| == 1 && st.s.q.pending == [] && NumberedBelow(st.batches[0], |st.handed|))
  }

  lemma StepKeepsOrder(st: State, step: Step)
    requires InOrder(st) && Orderly(st, step)
    ensures InOrder(Next(st, step))
  {
    if step.StepReplay? && step.i < |st.batches| && |step.answers| == |st.batches[step.i]| {
      SendAllAppends(st.s, st.batches[0], step.answers);
      var p' := Next(st, step).s.q.pending;
      assert p'[0..] == p';
    }
  }

  /** In every orderly run the queue is in arrival order, also when replays fail midway. */
  lemma {:induction false} ArrivalOrderKept(steps: seq<Step>)
    requires OrderlyRun(steps)
    ensures InOrder(Run(steps)) && Increasing(Run(steps).s.q.pending)
  {
    if steps != [] {
      ArrivalOrderKept(steps[..|steps| - 1]);
      StepKeepsOrder(Run(steps[..|steps| - 1]), steps[|steps| - 1]);
    }
  }
}

/** The message side of a client session as an object. */
module PendingMessages {
  import opened Options
  import S = PendingSpec

  class ClientSession {
    var client: Option<nat>
    var pendingClientMessages: seq<S.Message>
    var hasPendingChat: bool
    var hasPendingParticipantsUpdate: bool
    ghost var delivered: seq<S.Message>
    ghost var dropped: seq<S.Message>

    ghost function View(): S.Session
      reads this
    {
      var q := S.Queue(pendingClientMessages, hasPendingChat, hasPendingParticipantsUpdate);
      S.Session(client, q, delivered, dropped)
    }

    constructor ()
      ensures View() == S.Session(None, S.EMPTY, [], [])
    {
      client, pendingClientMessages, hasPendingChat, hasPendingParticipantsUpdate := None, [], false, false;
      delivered, dropped := [], [];
    }

    method StorePendingMessage(message: S.Message)
      modifies this
      ensures View() == old(View()).(q := S.Store(old(View()).q, message),
        dropped := if S.Drops(old(View()).q, message) then old(dropped) + [message] else old(dropped))
    {
      if message.chatRefresh {
        if hasPendingChat {
          dropped := dropped + [message];
          return;
        }
        hasPendingChat := true;
      }
      if !hasPendingParticipantsUpdate && message.participantsUpdate {
        hasPendingParticipantsUpdate := true;
      }
      pendingClientMessages := pendingClientMessages + [message];
    }

    method SendMessageUnlocked(message: S.Message, accepted: bool)
      modifies this
      ensures View() == S.Send(old(View()), message, accepted)
    {
      if client.Some? {
        if accepted {
          delivered := delivered + [message];
          return;
        }
      }
      StorePendingMessage(message);
    }

    method SendMessages(messages: seq<S.Message>, answers: seq<bool>)
      requires |messages| == |answers|
      modifies this
      ensures View() == S.SendAll(old(View()), messages, answers)
    {
      var i := 0;
      assert messages[..0] == [];
      while i < |messages|
        invariant 0 <= i <= |messages|
        invariant View() == S.SendAll(old(View()), messages[..i], answers[..i])
      {
        SendMessageUnlocked(messages[i], answers[i]);
        i := i + 1;
        assert messages[..i][..i - 1] == messages[..i - 1] && answers[..i][..i - 1] == answers[..i - 1];
      }
      assert messages[..i] == messages && answers[..i] == answers;
    }

    /**
     * The first half of a resume: takes the queue. `update` says whether the room has to send the
     * participants list, which is needed unless the queue already has such an update.
     */
    method TakePending() returns (messages: seq<S.Message>, update: bool)
      requires S.QueueOk(View().q)
      modifies this
      ensures messages == old(pendingClientMessages) && View() == old(View()).(q := S.EMPTY) && S.QueueOk(View().q)
      ensures update <==> forall i :: 0 <= i < |messages| ==> !messages[i].participantsUpdate
    {
      messages, update := pendingClientMessages, !hasPendingParticipantsUpdate;
      pendingClientMessages, hasPendingChat, hasPendingParticipantsUpdate := [], false, false;
    }

    /** A resume without interference; `answers` says which of the queued messages the client accepts. */
    method NotifySessionResumed(answers: seq<bool>) returns (update: bool)
      requires S.QueueOk(View().q) && |answers| == |pendingClientMessages|
      modifies this
      ensures View() == S.SendAll(old(View()).(q := S.EMPTY), old(pendingClientMessages), answers)
      ensures S.QueueOk(View().q)
      ensures var was := old(pendingClientMessages);
        update <==> forall i :: 0 <= i < |was| ==> !was[i].participantsUpdate
    {
      if |pendingClientMessages| == 0 {
        return true;
      }
      var messages;
      messages, update := TakePending();
      S.SendAllKeepsQueueOk(View(), messages, answers);
      SendMessages(messages, answers);
    }
  }
}
