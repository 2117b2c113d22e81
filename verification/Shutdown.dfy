/**
 * The graceful shutdown of the proxy: scheduling sets a flag and then counts the registered
 * clients, deleting removes a client and then reads the flag. Setting, counting, deleting and
 * reading are separate steps of any number of threads; the last two happen under the clients lock.
 */
module Shutdown {
  import opened Options

  datatype Pc =
    | ScheduleStart
    | ScheduleCount             // has set the flag
    | DeleteStart(id: nat)
    | DeleteCheck               // holds the lock, has deleted its client
    | StoreStart(id: nat)
    | Finished

  /** `signals` counts the sends to the shutdown channel. */
  datatype State = State(flag: bool, clients: set<nat>, lock: Option<nat>, signals: nat, threads: map<nat, Pc>)

  predicate IsStart(pc: Pc) {
    pc.ScheduleStart? || pc.DeleteStart? || pc.StoreStart?
  }

  function Initial(clients: set<nat>, threads: map<nat, Pc>): State {
    State(false, clients, None, 0, threads)
  }

  function Goto(s: State, t: nat, pc: Pc): State {
    s.(threads := s.threads[t := pc])
  }

  /** One step of thread t; a thread that needs the lock waits while another has it. */
  function Next(s: State, t: nat): State
    requires t in s.threads
  {
    match s.threads[t]
    case ScheduleStart => if s.flag then Goto(s, t, Finished) else Goto(s.(flag := true), t, ScheduleCount)
    case ScheduleCount =>
      if s.lock.Some? then s
      else Goto(if s.clients == {} then s.(signals := s.signals + 1) else s, t, Finished)
    case DeleteStart(id) =>
      if s.lock.Some? then s
      else if id !in s.clients then Goto(s, t, Finished)
      else Goto(s.(clients := s.clients - {id}, lock := Some(t)), t, DeleteCheck)
    case DeleteCheck =>
      var s' := if s.clients == {} && s.flag then s.(signals := s.signals + 1) else s;
      Goto(s'.(lock := None), t, Finished)
    case StoreStart(id) => if s.lock.Some? then s else Goto(s.(clients := s.clients + {id}), t, Finished)
    case Finished => s
  }

  function Run(s: State, moves: seq<nat>): State {
    if moves == [] then s
    else
      var before := Run(s, moves[..|moves| - 1]);
      if moves[|moves| - 1] in before.threads then Next(before, moves[|moves| - 1]) else before
  }

  /** Some thread has still to look whether the shutdown can be signalled. */
  ghost predicate InProgress(s: State) {
    exists t :: t in s.threads && (s.threads[t].ScheduleCount? || s.threads[t].DeleteCheck?)
  }

  ghost predicate Inv(s: State) {
    && (forall t :: t in s.threads ==> (s.threads[t].DeleteCheck? <==> s.lock == Some(t)))
    && (s.lock.Some? ==> s.lock.value in s.threads)
    && (forall t :: t in s.threads && s.threads[t].ScheduleCount? ==> s.flag)
    && (s.flag && s.clients == {} ==> s.signals > 0 || InProgress(s))
  }

  lemma StepKeepsInv(s: State, t: nat)
    requires Inv(s) && t in s.threads
    ensures Inv(Next(s, t))
  {
    var s' := Next(s, t);
    if s'.threads[t].ScheduleCount? || s'.threads[t].DeleteCheck? {
      assert InProgress(s');
    } else if InProgress(s) {
      var u :| u in s.threads && (s.threads[u].ScheduleCount? || s.threads[u].DeleteCheck?);
      if u != t { assert s'.threads[u] == s.threads[u] && InProgress(s'); }
    }
  }

  lemma {:induction false} RunKeepsInv(s: State, moves: seq<nat>)
    requires Inv(s)
    ensures Inv(Run(s, moves))
  {
    if moves != [] {
      var before := Run(s, moves[..|moves| - 1]);
      RunKeepsInv(s, moves[..|moves| - 1]);
      if moves[|moves| - 1] in before.threads { StepKeepsInv(before, moves[|moves| - 1]); }
    }
  }

  /**
   * In every interleaving, once shutdown is scheduled, the registry is empty and no schedule or
   * delete is in progress, the signal has been sent.
   */
  lemma SignalNeverLost(clients: set<nat>, threads: map<nat, Pc>, moves: seq<nat>)
    requires forall t :: t in threads ==> IsStart(threads[t])
    ensures var s := Run(Initial(clients, threads), moves);
      s.flag && s.clients == {} && !InProgress(s) ==> s.signals > 0
  {
    RunKeepsInv(Initial(clients, threads), moves);
  }

  /** A signal is only sent if at some moment of the run the flag was set while the registry was empty. */
  lemma {:induction false} SignalIsJustified(clients: set<nat>, threads: map<nat, Pc>, moves: seq<nat>) returns (k: nat)
    requires forall t :: t in threads ==> IsStart(threads[t])
    requires Run(Initial(clients, threads), moves).signals > 0
    ensures k <= |moves|
    ensures var s := Run(Initial(clients, threads), moves[..k]); s.flag && s.clients == {}
  {
    var first := Initial(clients, threads);
    var before := moves[..|moves| - 1];
    var s := Run(first, before);
    if s.signals > 0 {
      k := SignalIsJustified(clients, threads, before);
      assert before[..k] == moves[..k];
    } else {
      RunKeepsInv(first, before);
      k := |before|;
      assert moves[..k] == before;
    }
  }

  // ---- Each call that nobody disturbs ----

  /** Scheduling sets the flag, and signals if no client is left; a second time it does nothing. */
  lemma ScheduleAlone(s: State, t: nat)
    requires t in s.threads && s.threads[t].ScheduleStart? && s.lock.None?
    ensures var s' := Next(Next(s, t), t);
      && s'.flag && s'.threads[t].Finished? && s'.clients == s.clients && s'.lock.None?
      && s'.signals == s.signals + if !s.flag && s.clients == {} then 1 else 0
  {
  }

  /** Deleting takes out the client, and signals if it was the last one and shutdown is scheduled. */
  lemma DeleteAlone(s: State, t: nat, id: nat)
    requires t in s.threads && s.threads[t] == DeleteStart(id) && s.lock.None?
    ensures var s' := Next(Next(s, t), t);
      && s'.flag == s.flag && s'.threads[t].Finished? && s'.clients == s.clients - {id} && s'.lock.None?
      && s'.signals == s.signals + if s.flag && s.clients == {id} then 1 else 0
  {
    assert id !in s.clients ==> s.clients - {id} == s.clients;
    assert s.clients - {id} == {} && id in s.clients <==> s.clients == {id};
  }

  /** Storing adds the client and never signals. */
  lemma StoreAlone(s: State, t: nat, id: nat)
    requires t in s.threads && s.threads[t] == StoreStart(id) && s.lock.None?
    ensures var s' := Next(s, t);
      && s'.flag == s.flag && s'.threads[t].Finished? && s'.clients == s.clients + {id}
      && s'.signals == s.signals && s'.lock.None?
  {
  }
}
