/**
 * The session limit of a backend. Registering a session adds it to the backend before the hub,
 * closing one removes it from the hub before the backend, and any number of closes of the same
 * session may run at once. Each of these four is its own step.
 */
module SessionLimitSpec {
  import opened Options
  import opened Sets

  /** `sessions` is absent until the first session is counted; a limit of zero counts none. */
  datatype Backend = Backend(limit: nat, sessions: Option<set<nat>>)

  function Counted(b: Backend): set<nat> {
    if b.sessions.Some? then b.sessions.value else {}
  }

  /** `limited` is false for internal and virtual sessions, which do not count. */
  function AddSession(b: Backend, id: nat, limited: bool): (Backend, bool) {
    if !limited || b.limit == 0 then (b, true)
    else if b.sessions.Some? && |b.sessions.value| >= b.limit then (b, false)
    else (b.(sessions := Some(Counted(b) + {id})), true)
  }

  function RemoveSession(b: Backend, id: nat): Backend {
    if b.sessions.Some? then b.(sessions := Some(b.sessions.value - {id})) else b
  }

  /** How far the registration of a session has come. */
  datatype Phase = Created | Added | Refused | Entered | Abandoned

  /**
   * `closing` holds the sessions that some close has ever removed from the hub; `half` has one entry for
   * each close that has done so and has still to remove the session from the backend.
   */
  datatype State = State(
    backend: Backend,
    hub: set<nat>,
    limited: set<nat>,
    phase: map<nat, Phase>,
    closing: set<nat>,
    half: multiset<nat>)

  function Initial(limit: nat): State {
    State(Backend(limit, None), {}, {}, map[], {}, multiset{})
  }

  datatype Step =
    | StepCreate(id: nat, limited: bool)
    | StepAdd(id: nat)
    | StepEnter(id: nat)
    | StepAbandon(id: nat)
    | StepCloseHub(id: nat)
    | StepCloseBackend(id: nat)

  function Next(s: State, step: Step): State {
    match step
    case StepCreate(id, limited) =>
      if id in s.phase then s
      else s.(phase := s.phase[id := Created], limited := if limited then s.limited + {id} else s.limited - {id})
    case StepAdd(id) =>
      if id !in s.phase || !s.phase[id].Created? then s
      else
        var (b, ok) := AddSession(s.backend, id, id in s.limited);
        s.(backend := b, phase := s.phase[id := if ok then Added else Refused])
    case StepEnter(id) =>
      if id !in s.phase || !s.phase[id].Added? then s
      else s.(hub := s.hub + {id}, phase := s.phase[id := Entered])
    // The client left before the session could enter the hub.
    case StepAbandon(id) =>
      if id !in s.phase || !s.phase[id].Added? then s else s.(phase := s.phase[id := Abandoned])
    case StepCloseHub(id) =>
      if id !in s.phase || s.phase[id].Created? || s.phase[id].Added? then s
      else s.(hub := s.hub - {id}, closing := s.closing + {id}, half := s.half + multiset{id})
    case StepCloseBackend(id) =>
      if id !in s.half then s else s.(backend := RemoveSession(s.backend, id), half := s.half - multiset{id})
  }

  function Run(limit: nat, steps: seq<Step>): State {
    if steps == [] then Initial(limit) else Next(Run(limit, steps[..|steps| - 1]), steps[|steps| - 1])
  }

  // ---- Invariant ----

  predicate IsAdded(s: State, id: nat) {
    id in s.phase && s.phase[id] in {Added, Abandoned}
  }

  /** A limited session is counted from before it enters the hub until after it has left it. */
  predicate SessionOk(s: State, id: nat) {
    && (id in s.hub ==> id in s.phase && s.phase[id].Entered? && id !in s.closing)
    && (id in s.limited ==> id in s.phase)
    && (id in s.closing ==> id in s.phase && !s.phase[id].Created? && !s.phase[id].Added?)
    && (id in s.half ==> id in s.closing)
    && (id in s.closing && id in Counted(s.backend) ==> id in s.half)
    && (id in s.limited && (id in s.hub || s.phase[id].Added?) ==> id in Counted(s.backend))
    && (id in Counted(s.backend) ==> id in s.limited && (id in s.hub || IsAdded(s, id) || id in s.half))
  }

  ghost predicate Inv(s: State) {
    && |Counted(s.backend)| <= s.backend.limit
    && (forall id :: SessionOk(s, id))
  }

  lemma StepKeepsInv(s: State, step: Step)
    requires Inv(s) && s.backend.limit > 0
    ensures Inv(Next(s, step)) && Next(s, step).backend.limit == s.backend.limit
  {
    var s' := Next(s, step);
    forall id ensures SessionOk(s', id) {
      assert SessionOk(s, id);
    }
    if step.StepCloseBackend? {
      SubsetSize(Counted(s'.backend), Counted(s.backend));
    }
  }

  lemma {:induction false} RunKeepsInv(limit: nat, steps: seq<Step>)
    requires limit > 0
    ensures Inv(Run(limit, steps)) && Run(limit, steps).backend.limit == limit
  {
    if steps != [] {
      RunKeepsInv(limit, steps[..|steps| - 1]);
      StepKeepsInv(Run(limit, steps[..|steps| - 1]), steps[|steps| - 1]);
    }
  }

  /** At no moment of any run are there more limited sessions in the hub than the limit allows. */
  lemma LimitHolds(limit: nat, steps: seq<Step>)
    requires limit > 0
    ensures var s := Run(limit, steps);
      && s.hub * s.limited <= Counted(s.backend)
      && |s.hub * s.limited| <= |Counted(s.backend)| <= limit
  {
    RunKeepsInv(limit, steps);
    var s := Run(limit, steps);
    forall id | id in s.hub * s.limited ensures id in Counted(s.backend) {
      assert SessionOk(s, id);
    }
    SubsetSize(s.hub * s.limited, Counted(s.backend));
  }

  /**
   * In any run a session is refused exactly when the backend has a limit, the session counts, and as many
   * sessions count as the limit allows; otherwise it is added, and counted if there is a limit for it.
   */
  lemma RefusedIffFull(limit: nat, steps: seq<Step>, id: nat)
    requires var s := Run(limit, steps); id in s.phase && s.phase[id].Created?
    ensures var s, s' := Run(limit, steps), Run(limit, steps + [StepAdd(id)]);
      var counts := limit > 0 && id in s.limited;
      var full := |Counted(s.backend)| == limit;
      && id in s'.phase && s'.phase[id] == (if counts && full then Refused else Added)
      && Counted(s'.backend) == if counts && !full then Counted(s.backend) + {id} else Counted(s.backend)
  {
    if limit > 0 { RunKeepsInv(limit, steps); }
    LimitIsFixed(limit, steps);
    assert (steps + [StepAdd(id)])[..|steps|] == steps;
  }

  lemma {:induction false} LimitIsFixed(limit: nat, steps: seq<Step>)
    ensures Run(limit, steps).backend.limit == limit
  {
    if steps != [] { LimitIsFixed(limit, steps[..|steps| - 1]); }
  }

  /** With any limit, also without one, only a session that counts towards a limit is ever refused. */
  lemma {:induction false} OnlyCountedAreRefused(limit: nat, steps: seq<Step>, id: nat)
    ensures var s := Run(limit, steps);
      id in s.phase && s.phase[id].Refused? ==> limit > 0 && id in s.limited
  {
    if steps != [] {
      OnlyCountedAreRefused(limit, steps[..|steps| - 1], id);
      LimitIsFixed(limit, steps[..|steps| - 1]);
    }
  }

  predicate IsIn(s: State, id: nat, phase: Phase) {
    id in s.phase && s.phase[id] == phase
  }

  /** A close leaves a session alone until its registration has finished. */
  predicate MayClose(s: State, id: nat) {
    IsIn(s, id, Entered) || IsIn(s, id, Refused) || IsIn(s, id, Abandoned)
  }

  /** Where one session is after a step: it enters the hub once it was added and leaves it when it is closed. */
  lemma SessionStep(s: State, step: Step, id: nat)
    ensures var s' := Next(s, step);
      && (id in s'.phase <==> id in s.phase || (step.StepCreate? && step.id == id))
      && (id !in s.phase && step.StepCreate? && step.id == id ==>
            s'.phase[id] == Created && (id in s'.limited <==> step.limited))
      && (id in s.phase ==> (id in s'.limited <==> id in s.limited))
      && (IsIn(s', id, Entered) <==> IsIn(s, id, Entered) || (step == StepEnter(id) && IsIn(s, id, Added)))
      && (IsIn(s', id, Abandoned) <==> IsIn(s, id, Abandoned) || (step == StepAbandon(id) && IsIn(s, id, Added)))
      && (id in s'.hub <==>
            || (step == StepEnter(id) && IsIn(s, id, Added))
            || (id in s.hub && !(step == StepCloseHub(id) && MayClose(s, id))))
  {
  }

  /** What a close does: one more of it is half done after it left the hub, and one less after the backend. */
  lemma CloseStep(s: State, step: Step, id: nat)
    ensures var s' := Next(s, step);
      && (id in s'.closing <==> id in s.closing || (step == StepCloseHub(id) && MayClose(s, id)))
      && s'.half[id] == s.half[id]
           + (if step == StepCloseHub(id) && MayClose(s, id) then 1 else 0)
           - (if step == StepCloseBackend(id) && id in s.half then 1 else 0)
      && (step == StepCloseBackend(id) && id in s.half ==> id !in Counted(s'.backend))
  {
  }

  /** Nothing leaks: when no registration and no close is under way, exactly the hub's limited sessions count. */
  lemma NothingLeaks(limit: nat, steps: seq<Step>)
    requires limit > 0
    requires var s := Run(limit, steps);
      && (forall id :: id in s.phase ==> !s.phase[id].Added?)
      && (forall id :: id in s.phase && s.phase[id].Abandoned? ==> id in s.closing)
      && s.half == multiset{}
    ensures var s := Run(limit, steps); Counted(s.backend) == s.hub * s.limited
  {
    RunKeepsInv(limit, steps);
    var s := Run(limit, steps);
    forall id ensures id in Counted(s.backend) <==> id in s.hub * s.limited {
      assert SessionOk(s, id);
    }
  }
}

/** A backend as an object. */
module Backends {
  import opened Options
  import S = SessionLimitSpec

  class Backend {
    const sessionLimit: nat
    var sessions: Option<set<nat>>

    ghost function View(): S.Backend
      reads this
    {
      S.Backend(sessionLimit, sessions)
    }

    constructor (sessionLimit: nat)
      ensures View() == S.Backend(sessionLimit, None)
    {
      this.sessionLimit, sessions := sessionLimit, None;
    }

    method AddSession(id: nat, limited: bool) returns (ok: bool)
      modifies this
      ensures (View(), ok) == S.AddSession(old(View()), id, limited)
      ensures !ok <==> limited && sessionLimit > 0 && |S.Counted(old(View()))| >= sessionLimit
      ensures S.Counted(View()) ==
        if ok && limited && sessionLimit > 0 then S.Counted(old(View())) + {id} else S.Counted(old(View()))
      ensures sessionLimit > 0 && |S.Counted(old(View()))| <= sessionLimit ==> |S.Counted(View())| <= sessionLimit
    {
      if !limited || sessionLimit == 0 {
        return true;
      }
      if sessions.None? {
        sessions := Some({});
      } else if |sessions.value| >= sessionLimit {
        return false;
      }
      sessions := Some(sessions.value + {id});
      return true;
    }

    method RemoveSession(id: nat)
      modifies this
      ensures View() == S.RemoveSession(old(View()), id)
    {
      if sessions.Some? {
        sessions := Some(sessions.value - {id});
      }
    }
  }
}
