/**
 * Subscribers wait for their publisher. Every call of getPublisher, NewPublisher, Close and
 * doReconnect is a thread; each of its lock operations, map accesses and notifier calls is one
 * step, and the steps of all threads interleave freely. A run starts from any finite set of
 * calls that have not begun yet.
 */
module Rendezvous {
  import opened Options
  import N = NotifierSpec

  /** Where a call stands. The constructors marked with (mu) are reached holding the MCU lock. */
  datatype Pc =
    | SubStart
    | SubFirst                                           // (mu) first lookup
    | SubRegister                                        // (mu) not found, creates its waiter next
    | SubRegistered(w: N.Waiter)                         // (mu) unlocks next
    | SubLoop(w: N.Waiter)                               // top of the wait loop
    | SubLooking(w: N.Waiter)                            // (mu) lookup in the loop
    | SubWaiting(w: N.Waiter)                            // blocked until the context is done
    | SubReturning(w: N.Waiter, result: Option<nat>)     // runs the deferred release next
    | PubStart(publisher: nat)
    | PubInsert(publisher: nat)                          // (mu)
    | PubNotify                                          // (mu) inserted, notifies next
    | CloseStart
    | CloseDelete                                        // (mu)
    | ReconnectStart
    | ReconnectClear                                     // (mu)
    | ReconnectReset                                     // (mu)
    | Unlocking                                          // (mu) unlocks and returns next
    | Returned(value: Option<nat>)

  datatype Thread = Thread(key: string, pc: Pc)

  /** What the calls share: the MCU lock, the publishers it protects and the notifier. */
  datatype Shared = Shared(mu: Option<nat>, publishers: map<string, nat>, n: N.State)

  datatype State = State(sh: Shared, threads: map<nat, Thread>)

  predicate IsStart(pc: Pc) {
    pc.SubStart? || pc.PubStart? || pc.CloseStart? || pc.ReconnectStart?
  }

  predicate HoldsLock(pc: Pc) {
    || pc.SubFirst? || pc.SubRegister? || pc.SubRegistered? || pc.SubLooking? || pc.PubInsert? || pc.PubNotify?
    || pc.CloseDelete? || pc.ReconnectClear? || pc.ReconnectReset? || pc.Unlocking?
  }

  function Initial(threads: map<nat, Thread>): State {
    State(Shared(None, map[], N.INITIAL), threads)
  }

  function Lookup(sh: Shared, key: string): Option<nat> {
    if key in sh.publishers then Some(sh.publishers[key]) else None
  }

  /** Takes the lock when it is free; otherwise the thread stays where it is. */
  function Lock(sh: Shared, t: nat, pc: Pc, locked: Pc): (Shared, Pc) {
    if sh.mu.None? then (sh.(mu := Some(t)), locked) else (sh, pc)
  }

  function Unlock(sh: Shared): Shared {
    sh.(mu := None)
  }

  /** One step of thread t. `expired` says that the caller's own context is done. */
  function Act(sh: Shared, t: nat, key: string, pc: Pc, expired: bool): (Shared, Pc) {
    match pc
    case SubStart => Lock(sh, t, pc, SubFirst)
    case SubFirst => if key in sh.publishers then (Unlock(sh), Returned(Lookup(sh, key))) else (sh, SubRegister)
    case SubRegister => var (n, w) := N.NewWaiter(sh.n, key); (sh.(n := n), SubRegistered(w))
    case SubRegistered(w) => (Unlock(sh), SubLoop(w))
    case SubLoop(w) => Lock(sh, t, pc, SubLooking(w))
    case SubLooking(w) => (Unlock(sh), if key in sh.publishers then SubReturning(w, Lookup(sh, key)) else SubWaiting(w))
    case SubWaiting(w) =>
      (sh, if expired then SubReturning(w, None) else if w.ctx in sh.n.done then SubLoop(w) else pc)
    case SubReturning(w, result) => (sh.(n := N.Release(sh.n, w)), Returned(result))
    case PubStart(p) => Lock(sh, t, pc, PubInsert(p))
    case PubInsert(p) => (sh.(publishers := sh.publishers[key := p]), PubNotify)
    case PubNotify => (sh.(n := N.Notify(sh.n, key)), Unlocking)
    case CloseStart => Lock(sh, t, pc, CloseDelete)
    case CloseDelete => (sh.(publishers := sh.publishers - {key}), Unlocking)
    case ReconnectStart => Lock(sh, t, pc, ReconnectClear)
    case ReconnectClear => (sh.(publishers := map[]), ReconnectReset)
    case ReconnectReset => (sh.(n := N.Reset(sh.n)), Unlocking)
    case Unlocking => (Unlock(sh), Returned(None))
    case Returned(_) => (sh, pc)
  }

  function Next(s: State, t: nat, expired: bool): State
    requires t in s.threads
  {
    var Thread(key, pc) := s.threads[t];
    var (sh, pc') := Act(s.sh, t, key, pc, expired);
    State(sh, s.threads[t := Thread(key, pc')])
  }

  datatype Move = Move(thread: nat, expired: bool)

  function Run(s: State, moves: seq<Move>): State {
    if moves == [] then s
    else
      var before := Run(s, moves[..|moves| - 1]);
      var m := moves[|moves| - 1];
      if m.thread in before.threads then Next(before, m.thread, m.expired) else before
  }

  // ---- Invariant ----

  predicate HasWaiter(pc: Pc) {
    pc.SubRegistered? || pc.SubLoop? || pc.SubLooking? || pc.SubWaiting? || pc.SubReturning?
  }

  /** The key for which the thread with the lock has inserted a publisher and not notified yet. */
  function Pending(s: State): Option<string> {
    if s.sh.mu.Some? && s.sh.mu.value in s.threads && s.threads[s.sh.mu.value].pc.PubNotify?
    then Some(s.threads[s.sh.mu.value].key) else None
  }

  /** The waiter belongs to a live generation or its context is done. */
  predicate Registered(n: N.State, w: N.Waiter) {
    w.id < n.nextWaiter && (w in N.Members(n, w.key) || w.ctx in n.done)
  }

  predicate ThreadOk(sh: Shared, pending: Option<string>, t: nat, th: Thread) {
    && (HoldsLock(th.pc) <==> sh.mu == Some(t))
    && (th.pc.SubRegister? ==> th.key !in sh.publishers)
    && (HasWaiter(th.pc) ==> th.pc.w.key == th.key && Registered(sh.n, th.pc.w))
    && (HasWaiter(th.pc) && !th.pc.SubReturning? && th.key in sh.publishers ==>
          th.pc.w.ctx in sh.n.done || pending == Some(th.key))
  }

  predicate WaitersApart(threads: map<nat, Thread>) {
    forall t, u :: t in threads && u in threads && t != u && HasWaiter(threads[t].pc) && HasWaiter(threads[u].pc)
      ==> threads[t].pc.w.id != threads[u].pc.w.id
  }

  ghost predicate Inv(s: State) {
    && N.Inv(s.sh.n)
    && (s.sh.mu.Some? ==> s.sh.mu.value in s.threads)
    && (forall t :: t in s.threads ==> ThreadOk(s.sh, Pending(s), t, s.threads[t]))
    && WaitersApart(s.threads)
  }

  // ---- The notifier along a step ----

  /** The notifier operation a step performs, if any. */
  function NotifierOp(key: string, pc: Pc): Option<N.Op> {
    match pc
    case SubRegister => Some(N.OpNew(key))
    case SubReturning(w, _) => Some(N.OpRelease(w))
    case PubNotify => Some(N.OpNotify(key))
    case ReconnectReset => Some(N.OpReset)
    case _ => None
  }

  lemma ActOnNotifier(sh: Shared, t: nat, key: string, pc: Pc, expired: bool)
    ensures Act(sh, t, key, pc, expired).0.n ==
      match NotifierOp(key, pc) case Some(op) => N.Step(sh.n, op) case None => sh.n
  {
  }

  lemma RegisteredStays(n: N.State, op: N.Op, w: N.Waiter)
    requires N.Inv(n) && Registered(n, w) && op != N.OpRelease(w)
    ensures Registered(N.Step(n, op), w) && n.done <= N.Step(n, op).done
    ensures N.Wakes(op, w.key) ==> w.ctx in N.Step(n, op).done
  {
    N.DoneStays(n, op);
    if w in N.Members(n, w.key) { N.MemberStep(n, op, w); }
  }

  lemma NotifierKept(sh: Shared, t: nat, key: string, pc: Pc, expired: bool)
    requires N.Inv(sh.n)
    ensures N.Inv(Act(sh, t, key, pc, expired).0.n)
  {
    ActOnNotifier(sh, t, key, pc, expired);
    if NotifierOp(key, pc).Some? { N.StepKeepsInv(sh.n, NotifierOp(key, pc).value); }
  }

  // ---- What one step does to the thread that takes it and to the others ----

  /** The pending key after a step of thread t. */
  function PendingAfter(pending: Option<string>, sh': Shared, t: nat, th': Thread): Option<string> {
    if sh'.mu == Some(t) then if th'.pc.PubNotify? then Some(th'.key) else None
    else if sh'.mu.None? then None
    else pending
  }

  lemma PendingStep(s: State, t: nat, expired: bool)
    requires Inv(s) && t in s.threads
    ensures var s' := Next(s, t, expired);
      Pending(s') == PendingAfter(Pending(s), s'.sh, t, s'.threads[t])
  {
    assert ThreadOk(s.sh, Pending(s), t, s.threads[t]);
    LockStep(s.sh, t, s.threads[t].key, s.threads[t].pc, expired);
  }

  /** A step leaves the lock alone, takes it when it is free or gives it back when it has it. */
  lemma LockStep(sh: Shared, t: nat, key: string, pc: Pc, expired: bool)
    requires HoldsLock(pc) <==> sh.mu == Some(t)
    ensures var (sh', pc') := Act(sh, t, key, pc, expired);
      && (HoldsLock(pc') <==> sh'.mu == Some(t))
      && (sh'.mu == sh.mu || (sh.mu.None? && sh'.mu == Some(t)) || (sh.mu == Some(t) && sh'.mu.None?))
      && (sh'.publishers != sh.publishers ==> sh.mu == Some(t) == sh'.mu)
      && (forall k :: k in sh'.publishers && k !in sh.publishers ==> k == key && pc'.PubNotify?)
  {
  }

  lemma SameThread(sh: Shared, pending: Option<string>, t: nat, th: Thread, expired: bool)
    requires N.Inv(sh.n) && ThreadOk(sh, pending, t, th)
    requires sh.mu.None? ==> pending.None?
    requires sh.mu == Some(t) ==> pending == if th.pc.PubNotify? then Some(th.key) else None
    ensures var (sh', pc') := Act(sh, t, th.key, th.pc, expired);
      ThreadOk(sh', PendingAfter(pending, sh', t, Thread(th.key, pc')), t, Thread(th.key, pc'))
  {
    LockStep(sh, t, th.key, th.pc, expired);
    if th.pc.SubRegister? { N.NewWaiterKeepsInv(sh.n, th.key); }
  }

  lemma OtherThread(sh: Shared, pending: Option<string>, t: nat, th: Thread, expired: bool, u: nat, other: Thread)
    requires N.Inv(sh.n) && ThreadOk(sh, pending, t, th) && ThreadOk(sh, pending, u, other) && t != u
    requires sh.mu.None? ==> pending.None?
    requires sh.mu == Some(t) ==> pending == if th.pc.PubNotify? then Some(th.key) else None
    requires HasWaiter(th.pc) && HasWaiter(other.pc) ==> th.pc.w.id != other.pc.w.id
    ensures var (sh', pc') := Act(sh, t, th.key, th.pc, expired);
      ThreadOk(sh', PendingAfter(pending, sh', t, Thread(th.key, pc')), u, other)
  {
    LockStep(sh, t, th.key, th.pc, expired);
    ActOnNotifier(sh, t, th.key, th.pc, expired);
    var op := NotifierOp(th.key, th.pc);
    if HasWaiter(other.pc) && op.Some? { RegisteredStays(sh.n, op.value, other.pc.w); }
  }

  /** A thread keeps its waiter or has just got a new one. */
  lemma WaiterOrigin(sh: Shared, t: nat, key: string, pc: Pc, expired: bool)
    ensures var pc' := Act(sh, t, key, pc, expired).1;
      HasWaiter(pc') ==> (HasWaiter(pc) && pc'.w == pc.w) || pc'.w.id == sh.n.nextWaiter
  {
  }

  lemma StepKeepsInv(s: State, t: nat, expired: bool)
    requires Inv(s) && t in s.threads
    ensures Inv(Next(s, t, expired))
  {
    var s', th := Next(s, t, expired), s.threads[t];
    assert ThreadOk(s.sh, Pending(s), t, th);
    NotifierKept(s.sh, t, th.key, th.pc, expired);
    LockStep(s.sh, t, th.key, th.pc, expired);
    PendingStep(s, t, expired);
    WaiterOrigin(s.sh, t, th.key, th.pc, expired);
    SameThread(s.sh, Pending(s), t, th, expired);
    forall u | u in s'.threads && u != t ensures ThreadOk(s'.sh, Pending(s'), u, s'.threads[u]) {
      assert ThreadOk(s.sh, Pending(s), u, s.threads[u]);
      OtherThread(s.sh, Pending(s), t, th, expired, u, s.threads[u]);
    }
    forall u | u in s.threads && HasWaiter(s.threads[u].pc) ensures s.threads[u].pc.w.id < s.sh.n.nextWaiter {
      assert ThreadOk(s.sh, Pending(s), u, s.threads[u]);
    }
  }

  lemma {:induction false} RunKeepsInv(threads: map<nat, Thread>, moves: seq<Move>)
    requires forall t :: t in threads ==> IsStart(threads[t].pc)
    ensures Inv(Run(Initial(threads), moves))
  {
    if moves != [] {
      RunKeepsInv(threads, moves[..|moves| - 1]);
      var before, m := Run(Initial(threads), moves[..|moves| - 1]), moves[|moves| - 1];
      if m.thread in before.threads { StepKeepsInv(before, m.thread, m.expired); }
    }
  }

  // ---- No lost wakeups ----

  predicate InWaitLoop(pc: Pc) {
    pc.SubLoop? || pc.SubWaiting?
  }

  /**
   * In every reachable state in which the MCU lock is free, a subscriber in its wait loop whose
   * publisher is registered has its context done already: it is never parked.
   */
  lemma NoSubscriberParks(threads: map<nat, Thread>, moves: seq<Move>, t: nat)
    requires forall u :: u in threads ==> IsStart(threads[u].pc)
    ensures var s := Run(Initial(threads), moves);
      s.sh.mu.None? && t in s.threads && InWaitLoop(s.threads[t].pc) && s.threads[t].key in s.sh.publishers
      ==> s.threads[t].pc.w.ctx in s.sh.n.done
  {
    RunKeepsInv(threads, moves);
    var s := Run(Initial(threads), moves);
    if t in s.threads { assert ThreadOk(s.sh, Pending(s), t, s.threads[t]); }
  }

  /** From there, at most three steps of its own make the subscriber return the registered publisher. */
  lemma SubscriberReturnsPublisher(threads: map<nat, Thread>, moves: seq<Move>, t: nat)
    requires forall u :: u in threads ==> IsStart(threads[u].pc)
    requires var s := Run(Initial(threads), moves);
      s.sh.mu.None? && t in s.threads && InWaitLoop(s.threads[t].pc) && s.threads[t].key in s.sh.publishers
    ensures var s := Run(Initial(threads), moves);
      var s1 := if s.threads[t].pc.SubWaiting? then Next(s, t, false) else s;
      Next(Next(s1, t, false), t, false).threads[t].pc
      == SubReturning(s.threads[t].pc.w, Some(s.sh.publishers[s.threads[t].key]))
  {
    NoSubscriberParks(threads, moves, t);
  }

  /** In every reachable state at most one call is inside a critical section of the MCU lock. */
  lemma LockExcludes(threads: map<nat, Thread>, moves: seq<Move>, t: nat, u: nat)
    requires forall v :: v in threads ==> IsStart(threads[v].pc)
    ensures var s := Run(Initial(threads), moves);
      t in s.threads && u in s.threads && HoldsLock(s.threads[t].pc) && HoldsLock(s.threads[u].pc) ==> t == u
  {
    RunKeepsInv(threads, moves);
    var s := Run(Initial(threads), moves);
    if t in s.threads && u in s.threads {
      assert ThreadOk(s.sh, Pending(s), t, s.threads[t]) && ThreadOk(s.sh, Pending(s), u, s.threads[u]);
    }
  }

  // ---- What the calls do to the publishers and what subscribers return ----

  /** What a move makes of the publisher under a key: insert its own, delete, clear, or leave it. */
  function PublisherAfter(s: State, m: Move, key: string): Option<nat> {
    if m.thread !in s.threads then Lookup(s.sh, key)
    else
      var Thread(k, pc) := s.threads[m.thread];
      if pc.PubInsert? && k == key then Some(pc.publisher)
      else if (pc.CloseDelete? && k == key) || pc.ReconnectClear? then None
      else Lookup(s.sh, key)
  }

  lemma PublisherStep(s: State, m: Move, key: string)
    requires m.thread in s.threads
    ensures Lookup(Next(s, m.thread, m.expired).sh, key) == PublisherAfter(s, m, key)
  {
  }

  /** The publishers are the fold of the inserts, deletes and clears of the run. */
  lemma PublishersAreFold(first: State, moves: seq<Move>, m: Move, key: string)
    ensures Lookup(Run(first, moves + [m]).sh, key) == PublisherAfter(Run(first, moves), m, key)
  {
    assert (moves + [m])[..|moves|] == moves;
    if m.thread in Run(first, moves).threads { PublisherStep(Run(first, moves), m, key); }
  }

  /** A publishing call keeps the publisher it was made for until it has inserted it. */
  lemma {:induction false} InsertsItsOwn(threads: map<nat, Thread>, moves: seq<Move>, t: nat)
    requires t in threads && threads[t].pc.PubStart?
    ensures var s := Run(Initial(threads), moves);
      && t in s.threads && s.threads[t].key == threads[t].key
      && (s.threads[t].pc in {threads[t].pc, PubInsert(threads[t].pc.publisher), PubNotify, Unlocking}
          || s.threads[t].pc.Returned?)
  {
    if moves != [] { InsertsItsOwn(threads, moves[..|moves| - 1], t); }
  }

  /** Undisturbed, a publishing call ends with its publisher registered and all waiters of the key woken. */
  lemma PublishAlone(s: State, t: nat, w: N.Waiter)
    requires N.Inv(s.sh.n) && t in s.threads && s.threads[t].pc.PubStart? && s.sh.mu.None?
    ensures var s' := Next(Next(Next(Next(s, t, false), t, false), t, false), t, false);
      && s'.threads[t].pc.Returned? && s'.sh.mu.None?
      && s'.sh.publishers == s.sh.publishers[s.threads[t].key := s.threads[t].pc.publisher]
      && (w in N.Members(s.sh.n, w.key) && w.key == s.threads[t].key ==> w.ctx in s'.sh.n.done)
  {
    if w in N.Members(s.sh.n, w.key) { N.MemberStep(s.sh.n, N.OpNotify(s.threads[t].key), w); }
  }

  /** Undisturbed, a close ends with the key absent, and a reconnect with no publisher and all waiters woken. */
  lemma CloseAlone(s: State, t: nat)
    requires t in s.threads && s.threads[t].pc.CloseStart? && s.sh.mu.None?
    ensures var s' := Next(Next(Next(s, t, false), t, false), t, false);
      && s'.threads[t].pc.Returned? && s'.sh.mu.None? && s'.sh.publishers == s.sh.publishers - {s.threads[t].key}
  {
  }

  lemma ReconnectAlone(s: State, t: nat, w: N.Waiter)
    requires N.Inv(s.sh.n) && t in s.threads && s.threads[t].pc.ReconnectStart? && s.sh.mu.None?
    ensures var s' := Next(Next(Next(Next(s, t, false), t, false), t, false), t, false);
      && s'.threads[t].pc.Returned? && s'.sh.mu.None? && s'.sh.publishers == map[]
      && (w in N.Members(s.sh.n, w.key) ==> w.ctx in s'.sh.n.done)
  {
    if w in N.Members(s.sh.n, w.key) { N.MemberStep(s.sh.n, N.OpReset, w); }
  }

  predicate IsSubscriber(pc: Pc) {
    || pc.SubStart? || pc.SubFirst? || pc.SubRegister? || pc.SubRegistered? || pc.SubLoop? || pc.SubLooking?
    || pc.SubWaiting? || pc.SubReturning? || pc.Returned?
  }

  /** What a subscriber has decided to return, if it has. */
  function Result(pc: Pc): Option<Option<nat>> {
    match pc
    case SubReturning(_, result) => Some(result)
    case Returned(value) => Some(value)
    case _ => None
  }

  /** A subscriber decides once: for the publisher under its key, or for nothing when its caller gave up. */
  lemma ResultStep(s: State, m: Move, t: nat)
    requires m.thread in s.threads && t in s.threads && IsSubscriber(s.threads[t].pc)
    ensures var s' := Next(s, m.thread, m.expired);
      var r, r' := Result(s.threads[t].pc), Result(s'.threads[t].pc);
      && t in s'.threads && s'.threads[t].key == s.threads[t].key && IsSubscriber(s'.threads[t].pc)
      && (r.Some? ==> r' == r)
      && (r.None? && r'.Some? ==>
            if r'.value.Some? then Lookup(s.sh, s.threads[t].key) == r'.value else m == Move(t, true))
  {
  }

  /** A waiting subscriber whose caller gives up returns nothing, and leaves everything as it is. */
  lemma GivingUpReturns(s: State, t: nat)
    requires t in s.threads && s.threads[t].pc.SubWaiting?
    ensures Next(s, t, true) ==
      s.(threads := s.threads[t := Thread(s.threads[t].key, SubReturning(s.threads[t].pc.w, None))])
  {
  }

  /** A subscriber that returns gives its waiter back. */
  lemma ReturnReleases(s: State, t: nat, expired: bool)
    requires Inv(s) && t in s.threads && s.threads[t].pc.SubReturning?
    ensures var w, s' := s.threads[t].pc.w, Next(s, t, expired);
      s'.threads[t].pc.Returned? && w !in N.Members(s'.sh.n, w.key)
  {
    var w := s.threads[t].pc.w;
    if w in N.Members(s.sh.n, w.key) { N.ReleaseEndsGeneration(s.sh.n, w); } else { NotMemberStays(s.sh.n, w); }
  }

  lemma NotMemberStays(n: N.State, w: N.Waiter)
    requires w !in N.Members(n, w.key)
    ensures w !in N.Members(N.Release(n, w), w.key)
  {
  }

  /** At some moment of the run the publisher was registered under the key. */
  ghost predicate WasRegistered(first: State, moves: seq<Move>, key: string, p: nat) {
    exists i :: 0 <= i <= |moves| && Lookup(Run(first, moves[..i]).sh, key) == Some(p)
  }

  ghost predicate GaveUp(moves: seq<Move>, t: nat) {
    exists i :: 0 <= i < |moves| && moves[i] == Move(t, true)
  }

  lemma EarlierHolds(first: State, moves: seq<Move>, key: string, p: nat, t: nat)
    requires moves != []
    ensures WasRegistered(first, moves[..|moves| - 1], key, p) ==> WasRegistered(first, moves, key, p)
    ensures GaveUp(moves[..|moves| - 1], t) ==> GaveUp(moves, t)
    ensures Lookup(Run(first, moves[..|moves| - 1]).sh, key) == Some(p) ==> WasRegistered(first, moves, key, p)
  {
    var before := moves[..|moves| - 1];
    if WasRegistered(first, before, key, p) {
      var i :| 0 <= i <= |before| && Lookup(Run(first, before[..i]).sh, key) == Some(p);
      assert before[..i] == moves[..i];
    }
    if GaveUp(before, t) {
      var i :| 0 <= i < |before| && before[i] == Move(t, true);
      assert moves[i] == Move(t, true);
    }
  }

  /**
   * In every interleaving a subscriber that has returned a publisher returned one that was registered under
   * its key at some moment of the run, and one that has returned nothing had its own caller give up.
   */
  lemma {:induction false} SubscriberReturnsRegistered(threads: map<nat, Thread>, moves: seq<Move>, t: nat)
    requires t in threads && threads[t].pc.SubStart?
    ensures var s := Run(Initial(threads), moves);
      && t in s.threads && s.threads[t].key == threads[t].key && IsSubscriber(s.threads[t].pc)
      && match Result(s.threads[t].pc)
         case None => true
         case Some(Some(p)) => WasRegistered(Initial(threads), moves, threads[t].key, p)
         case Some(None) => GaveUp(moves, t)
  {
    if moves != [] {
      var first, before, m := Initial(threads), moves[..|moves| - 1], moves[|moves| - 1];
      var s := Run(first, before);
      SubscriberReturnsRegistered(threads, before, t);
      if m.thread in s.threads { ResultStep(s, m, t); }
      var r := Result(Run(first, moves).threads[t].pc);
      EarlierHolds(first, moves, threads[t].key, if r.Some? && r.value.Some? then r.value.value else 0, t);
      assert m == Move(t, true) ==> GaveUp(moves, t);
    }
  }

  // ---- Waking up for nothing ----

  /** The move notifies the key or resets the notifier. */
  predicate WakesMove(s: State, m: Move, key: string) {
    && m.thread in s.threads
    && var op := NotifierOp(s.threads[m.thread].key, s.threads[m.thread].pc);
       op.Some? && N.Wakes(op.value, key)
  }

  lemma WokenStep(s: State, m: Move, t: nat)
    requires Inv(s) && m.thread in s.threads && t in s.threads && HasWaiter(s.threads[t].pc)
    ensures var s' := Next(s, m.thread, m.expired);
      HasWaiter(s'.threads[t].pc) ==>
        var w := s.threads[t].pc.w;
        s'.threads[t].pc.w == w && (w.ctx in s'.sh.n.done <==> w.ctx in s.sh.n.done || WakesMove(s, m, w.key))
  {
    var th, w := s.threads[m.thread], s.threads[t].pc.w;
    assert ThreadOk(s.sh, Pending(s), t, s.threads[t]);
    ActOnNotifier(s.sh, m.thread, th.key, th.pc, m.expired);
    var op := NotifierOp(th.key, th.pc);
    if op.Some? && HasWaiter(Next(s, m.thread, m.expired).threads[t].pc) {
      N.DoneStays(s.sh.n, op.value);
      if w in N.Members(s.sh.n, w.key) { N.MemberStep(s.sh.n, op.value, w); }
    }
  }

  /** A subscriber that got its waiter has it until it returns. */
  predicate Subscribed(th: Thread, key: string) {
    th.key == key && (HasWaiter(th.pc) || th.pc.Returned?)
  }

  lemma SubscribedStays(s: State, m: Move, t: nat, key: string)
    requires m.thread in s.threads && t in s.threads && Subscribed(s.threads[t], key)
    ensures var s' := Next(s, m.thread, m.expired);
      t in s'.threads && Subscribed(s'.threads[t], key) && (HasWaiter(s'.threads[t].pc) ==> HasWaiter(s.threads[t].pc))
  {
  }

  /** While the subscriber has its waiter, the waiter's context is done exactly if it was woken. */
  ghost predicate DoneIff(s: State, t: nat, key: string, woken: bool) {
    && t in s.threads && Subscribed(s.threads[t], key)
    && (HasWaiter(s.threads[t].pc) ==> (s.threads[t].pc.w.ctx in s.sh.n.done <==> woken))
  }

  lemma WaiterIsNew(s: State, m: Move)
    requires Inv(s) && m.thread in s.threads && s.threads[m.thread].pc.SubRegister?
    ensures DoneIff(Next(s, m.thread, m.expired), m.thread, s.threads[m.thread].key, false)
  {
    N.NewWaiterKeepsInv(s.sh.n, s.threads[m.thread].key);
  }

  lemma DoneIffStep(s: State, m: Move, t: nat, key: string, woken: bool)
    requires Inv(s) && m.thread in s.threads && DoneIff(s, t, key, woken)
    ensures DoneIff(Next(s, m.thread, m.expired), t, key, woken || WakesMove(s, m, key))
  {
    assert ThreadOk(s.sh, Pending(s), t, s.threads[t]);
    SubscribedStays(s, m, t, key);
    if HasWaiter(s.threads[t].pc) { WokenStep(s, m, t); }
  }

  /** Move n gives the subscriber its waiter. */
  predicate CreatesWaiter(first: State, moves: seq<Move>, n: nat, t: nat) {
    && n < |moves| && moves[n].thread == t
    && t in Run(first, moves[..n]).threads && Run(first, moves[..n]).threads[t].pc.SubRegister?
  }

  ghost predicate WokenSince(first: State, moves: seq<Move>, n: nat, key: string) {
    exists i :: n < i < |moves| && WakesMove(Run(first, moves[..i]), moves[i], key)
  }

  lemma WokenSinceStep(first: State, moves: seq<Move>, n: nat, key: string)
    requires n + 1 < |moves|
    ensures var before := moves[..|moves| - 1];
      WokenSince(first, moves, n, key) <==>
        WokenSince(first, before, n, key) || WakesMove(Run(first, before), moves[|before|], key)
  {
    var before := moves[..|moves| - 1];
    assert forall i :: 0 <= i <= |before| ==> before[..i] == moves[..i];
    if WokenSince(first, before, n, key) {
      var i :| n < i < |before| && WakesMove(Run(first, before[..i]), before[i], key);
      assert WakesMove(Run(first, moves[..i]), moves[i], key);
    }
    if WokenSince(first, moves, n, key) {
      var i :| n < i < |moves| && WakesMove(Run(first, moves[..i]), moves[i], key);
      assert i < |before| ==> WakesMove(Run(first, before[..i]), before[i], key);
    }
  }

  /** A subscriber's context is done exactly if its key was notified or everything reset since it got its waiter. */
  lemma {:induction false} DoneIffWoken(threads: map<nat, Thread>, moves: seq<Move>, n: nat, t: nat)
    requires (forall u :: u in threads ==> IsStart(threads[u].pc)) && CreatesWaiter(Initial(threads), moves, n, t)
    ensures var first := Initial(threads);
      var key := Run(first, moves[..n]).threads[t].key;
      DoneIff(Run(first, moves), t, key, WokenSince(first, moves, n, key))
    decreases |moves|
  {
    var first, before := Initial(threads), moves[..|moves| - 1];
    RunKeepsInv(threads, before);
    if n == |before| {
      WaiterIsNew(Run(first, before), moves[n]);
    } else {
      assert before[..n] == moves[..n];
      DoneIffWoken(threads, before, n, t);
      LastMove(first, moves, n, t, Run(first, moves[..n]).threads[t].key);
    }
  }

  lemma LastMove(first: State, moves: seq<Move>, n: nat, t: nat, key: string)
    requires n + 1 < |moves| && Inv(Run(first, moves[..|moves| - 1]))
    requires DoneIff(Run(first, moves[..|moves| - 1]), t, key, WokenSince(first, moves[..|moves| - 1], n, key))
    ensures DoneIff(Run(first, moves), t, key, WokenSince(first, moves, n, key))
  {
    var before := moves[..|moves| - 1];
    var s, m := Run(first, before), moves[|before|];
    WokenSinceStep(first, moves, n, key);
    if m.thread in s.threads { DoneIffStep(s, m, t, key, WokenSince(first, before, n, key)); }
  }

  /** The subscriber leaves its wait and comes back to the same state by its own three steps. */
  predicate Spins(s: State, t: nat)
    requires t in s.threads
  {
    var s1 := Next(s, t, false);
    s1 != s && Next(Next(s1, t, false), t, false) == s
  }

  lemma SpinsIffDone(s: State, t: nat)
    requires t in s.threads && s.threads[t].pc.SubWaiting? && s.sh.mu.None?
    ensures Spins(s, t) <==> s.threads[t].pc.w.ctx in s.sh.n.done && s.threads[t].key !in s.sh.publishers
  {
    var Thread(key, pc) := s.threads[t];
    var s1 := Next(s, t, false);
    if pc.w.ctx in s.sh.n.done {
      assert s1.threads[t].pc == SubLoop(pc.w);
      var s2 := Next(s1, t, false);
      var s3 := Next(s2, t, false);
      assert s2.threads[t].pc == SubLooking(pc.w);
      assert s3.sh == s.sh;
      assert key !in s.sh.publishers ==> s3.threads == s.threads;
    } else {
      assert s1.threads == s.threads;
    }
  }

  /**
   * A waiting subscriber runs in circles instead of blocking exactly if its publisher is absent and its
   * key was notified or everything reset since it got its waiter: a context that is done stays done.
   */
  lemma SpinsIffWoken(threads: map<nat, Thread>, moves: seq<Move>, n: nat, t: nat)
    requires (forall u :: u in threads ==> IsStart(threads[u].pc)) && CreatesWaiter(Initial(threads), moves, n, t)
    requires var s := Run(Initial(threads), moves);
      t in s.threads && s.threads[t].pc.SubWaiting? && s.sh.mu.None?
    ensures var s := Run(Initial(threads), moves);
      Spins(s, t) <==>
        WokenSince(Initial(threads), moves, n, s.threads[t].key) && s.threads[t].key !in s.sh.publishers
  {
    DoneIffWoken(threads, moves, n, t);
    SpinsIffDone(Run(Initial(threads), moves), t);
  }

  lemma ResetWakes(s: State, r: nat, t: nat)
    requires Inv(s) && r in s.threads && s.threads[r].pc.ReconnectClear?
    requires t in s.threads && s.threads[t].pc.SubWaiting?
    ensures var s' := Next(Next(Next(s, r, false), r, false), r, false);
      && t in s'.threads && s'.threads[t] == s.threads[t] && s'.sh.mu.None? && s'.sh.publishers == map[]
      && s.threads[t].pc.w.ctx in s'.sh.n.done
  {
    var w := s.threads[t].pc.w;
    assert ThreadOk(s.sh, Pending(s), t, s.threads[t]);
    RegisteredStays(s.sh.n, N.OpReset, w);
  }

  /** A reconnect makes every waiting subscriber run in circles. */
  lemma ReconnectMakesWaitersSpin(threads: map<nat, Thread>, moves: seq<Move>, r: nat, t: nat)
    requires forall u :: u in threads ==> IsStart(threads[u].pc)
    requires var s := Run(Initial(threads), moves);
      r in s.threads && s.threads[r].pc.ReconnectClear? && t in s.threads && s.threads[t].pc.SubWaiting?
    ensures var s := Run(Initial(threads), moves);
      Spins(Next(Next(Next(s, r, false), r, false), r, false), t)
  {
    RunKeepsInv(threads, moves);
    var s := Run(Initial(threads), moves);
    ResetWakes(s, r, t);
    SpinsIffDone(Next(Next(Next(s, r, false), r, false), r, false), t);
  }

  lemma RunAppend(first: State, moves: seq<Move>, m: Move)
    requires m.thread in Run(first, moves).threads
    ensures Run(first, moves + [m]) == Next(Run(first, moves), m.thread, m.expired)
  {
    assert (moves + [m])[..|moves|] == moves;
  }

  /** The run followed by three steps of one thread. */
  function Thrice(moves: seq<Move>, t: nat): seq<Move> {
    moves + [Move(t, false)] + [Move(t, false)] + [Move(t, false)]
  }

  lemma RunThrice(first: State, moves: seq<Move>, t: nat)
    requires t in Run(first, moves).threads
    ensures Run(first, Thrice(moves, t)) == Next(Next(Next(Run(first, moves), t, false), t, false), t, false)
  {
    var m := Move(t, false);
    RunAppend(first, moves, m);
    RunAppend(first, moves + [m], m);
    RunAppend(first, moves + [m] + [m], m);
  }

  lemma GetsWaiter(s: State, t: nat)
    requires t in s.threads && s.threads[t].pc.SubStart? && s.sh.mu.None? && s.threads[t].key !in s.sh.publishers
    ensures var s' := Next(Next(Next(s, t, false), t, false), t, false);
      && s'.threads == s.threads[t := Thread(s.threads[t].key, s'.threads[t].pc)] && s'.threads[t].pc.SubRegistered?
      && s'.sh.publishers == s.sh.publishers
  {
  }

  lemma EntersWait(s: State, t: nat)
    requires t in s.threads && s.threads[t].pc.SubRegistered? && s.threads[t].key !in s.sh.publishers
    ensures var s' := Next(Next(Next(s, t, false), t, false), t, false);
      && s'.threads == s.threads[t := Thread(s.threads[t].key, s'.threads[t].pc)] && s'.threads[t].pc.SubWaiting?
      && s'.sh.mu.None?
  {
  }

  lemma ReconnectLocks(s: State, r: nat)
    requires r in s.threads && s.threads[r].pc.ReconnectStart? && s.sh.mu.None?
    ensures Next(s, r, false).threads == s.threads[r := Thread(s.threads[r].key, ReconnectClear)]
  {
  }

  /** The shortest such run: one subscriber, one reconnect and no publisher. */
  lemma OneWaiterSpins(key: string) returns (threads: map<nat, Thread>, moves: seq<Move>)
    ensures threads == map[0 := Thread(key, SubStart), 1 := Thread(key, ReconnectStart)]
    ensures var s := Run(Initial(threads), moves); 0 in s.threads && s.threads[0].pc.SubWaiting? && Spins(s, 0)
  {
    threads := map[0 := Thread(key, SubStart), 1 := Thread(key, ReconnectStart)];
    var first := Initial(threads);
    var waiting := Thrice(Thrice([], 0), 0);
    OneWaiterWaits(threads, key);
    RunAppend(first, waiting, Move(1, false));
    ReconnectLocks(Run(first, waiting), 1);
    moves := Thrice(waiting + [Move(1, false)], 1);
    RunThrice(first, waiting + [Move(1, false)], 1);
    ReconnectMakesWaitersSpin(threads, waiting + [Move(1, false)], 1, 0);
    RunKeepsInv(threads, waiting + [Move(1, false)]);
    ResetWakes(Run(first, waiting + [Move(1, false)]), 1, 0);
  }

  lemma OneWaiterWaits(threads: map<nat, Thread>, key: string)
    requires threads == map[0 := Thread(key, SubStart), 1 := Thread(key, ReconnectStart)]
    ensures var s := Run(Initial(threads), Thrice(Thrice([], 0), 0));
      && 0 in s.threads && s.threads[0].pc.SubWaiting? && s.sh.mu.None?
      && 1 in s.threads && s.threads[1] == threads[1]
  {
    var first := Initial(threads);
    assert Run(first, []) == first;
    RunThrice(first, [], 0);
    GetsWaiter(first, 0);
    RunThrice(first, Thrice([], 0), 0);
    EntersWait(Run(first, Thrice([], 0)), 0);
  }
}
