/**
 * The life of sessions in the hub: register, disconnect, resume, takeover, expiry and close.
 * Sessions and clients are objects told apart by numbers; `objs` and `conns` hold their fields.
 * Each handler is one step.
 */
module HubSpec {
  import opened Options

  const UINT64 := 0x1_0000_0000_0000_0000
  const SESSION_EXPIRE_DURATION := 30_000_000_000 // nanoseconds

  datatype Kind = ClientKind | InternalKind | VirtualKind

  datatype Session = Session(sid: nat, kind: Kind, privateId: string, client: Option<nat>, expires: int)

  datatype Client = Client(session: Option<nat>, closed: bool)

  /**
   * `counter` counts the increments of the hub's 64-bit sid; `sessions` and `clients` are keyed
   * by sid; `expired` holds the sessions that wait for their deadline.
   */
  datatype Hub = Hub(
    counter: nat,
    sessions: map<nat, nat>,
    clients: map<nat, nat>,
    expired: set<nat>,
    objs: map<nat, Session>,
    conns: map<nat, Client>)

  const INITIAL := Hub(0, map[], map[], {}, map[], map[])

  // ---- Handlers ----

  /** Adding one to the sid, once more when it wraps around to zero. */
  function NextSid(counter: nat): nat {
    if (counter + 1) % UINT64 == 0 then counter + 2 else counter + 1
  }

  function Connect(h: Hub, c: nat): Hub {
    if c in h.conns then h else h.(conns := h.conns[c := Client(None, false)])
  }

  /** The connection is gone; the hub hears about it later. */
  function Drop(h: Hub, c: nat): Hub {
    if c in h.conns then h.(conns := h.conns[c := h.conns[c].(closed := true)]) else h
  }

  datatype Outcome = AuthFailed | IdsFailed | LimitExceeded | Accepted

  /** A hello is ignored on a connection that has a session already. */
  predicate MayHello(h: Hub, c: nat) {
    c in h.conns && h.conns[c].session.None? && !h.conns[c].closed
  }

  /** Two increments: one whose sid is not used and one for the session. */
  function Register(h: Hub, c: nat, kind: Kind, privateId: string, outcome: Outcome): Hub {
    if !MayHello(h, c) || kind.VirtualKind? || outcome.AuthFailed? then h
    else
      var ref := NextSid(NextSid(h.counter));
      var h' := h.(counter := ref);
      if outcome.IdsFailed? then h'
      else if outcome.LimitExceeded? then
        CloseSession(h'.(objs := h.objs[ref := Session(ref % UINT64, kind, privateId, None, 0)]), ref)
      else
        h'.(sessions := h.sessions[ref % UINT64 := ref],
            clients := h.clients[ref % UINT64 := c],
            objs := h.objs[ref := Session(ref % UINT64, kind, privateId, Some(c), 0)],
            conns := h.conns[c := h.conns[c].(session := Some(ref))])
  }

  function AddVirtual(h: Hub, privateId: string): Hub {
    var ref := NextSid(h.counter);
    h.(counter := ref,
       sessions := h.sessions[ref % UINT64 := ref],
       objs := h.objs[ref := Session(ref % UINT64, VirtualKind, privateId, None, 0)])
  }

  /** The session a resume id names, if it may be resumed. */
  function Resumable(h: Hub, resumeId: string, decoded: Option<nat>): Option<nat> {
    if decoded.None? || decoded.value !in h.sessions then None
    else
      var ref := h.sessions[decoded.value];
      if ref in h.objs && h.objs[ref].privateId == resumeId && !h.objs[ref].kind.VirtualKind? then Some(ref) else None
  }

  function Detach(h: Hub, ref: nat): Hub
    requires ref in h.objs
  {
    match h.objs[ref].client
    case None => h
    case Some(c) =>
      h.(objs := h.objs[ref := h.objs[ref].(client := None)],
         conns := if c in h.conns then h.conns[c := h.conns[c].(session := None)] else h.conns)
  }

  /** Resuming attaches the new client, which takes over from a previous one, and stops the expiry. */
  function Resume(h: Hub, c: nat, resumeId: string, decoded: Option<nat>): Hub {
    if !MayHello(h, c) || Resumable(h, resumeId, decoded).None? then h
    else
      var ref := Resumable(h, resumeId, decoded).value;
      var d := Detach(h, ref);
      d.(clients := h.clients[decoded.value := c],
         expired := h.expired - {ref},
         objs := d.objs[ref := d.objs[ref].(client := Some(c))],
         conns := d.conns[c := Client(Some(ref), false)])
  }

  /** The part of processUnregister that runs after it has read the client's session. */
  function UnregisterRead(h: Hub, c: nat, read: Option<nat>, now: int): Hub
    requires c in h.conns
  {
    if read.None? || read.value !in h.objs then h.(conns := h.conns[c := Client(None, true)])
    else
      var ref := read.value;
      var s := h.objs[ref];
      h.(clients := h.clients - {s.sid},
         expired := h.expired + {ref},
         objs := h.objs[ref := s.(expires := now + SESSION_EXPIRE_DURATION,
                                  client := if s.client == Some(c) then None else s.client)],
         conns := h.conns[c := Client(None, true)])
  }

  function Unregister(h: Hub, c: nat, now: int): Hub {
    if c in h.conns then UnregisterRead(h, c, h.conns[c].session, now) else h
  }

  function CloseSession(h: Hub, ref: nat): Hub {
    if ref !in h.objs then h
    else
      var sid := h.objs[ref].sid;
      Detach(h.(sessions := h.sessions - {sid}, clients := h.clients - {sid}, expired := h.expired - {ref}), ref)
  }

  function Bye(h: Hub, c: nat, now: int): Hub {
    if c in h.conns && h.conns[c].session.Some? then CloseSession(Unregister(h, c, now), h.conns[c].session.value)
    else Unregister(h, c, now)
  }

  predicate Due(h: Hub, ref: nat, now: int) {
    ref in h.expired && ref in h.objs && now > h.objs[ref].expires
  }

  function AllDue(h: Hub, now: int): set<nat> {
    set ref | ref in h.expired && Due(h, ref, now)
  }

  function ExpireOne(h: Hub, ref: nat, now: int): Hub {
    if Due(h, ref, now) then CloseSession(h, ref) else h
  }

  datatype Step =
    | StepConnect(c: nat)
    | StepDrop(c: nat)
    | StepRegister(c: nat, kind: Kind, privateId: string, outcome: Outcome)
    | StepAddVirtual(privateId: string)
    | StepResume(c: nat, resumeId: string, decoded: Option<nat>)
    | StepUnregister(c: nat, now: int)
    | StepBye(c: nat, now: int)
    | StepClose(ref: nat)
    | StepExpire(ref: nat, now: int)

  function Next(h: Hub, step: Step): Hub {
    match step
    case StepConnect(c) => Connect(h, c)
    case StepDrop(c) => Drop(h, c)
    case StepRegister(c, kind, privateId, outcome) => Register(h, c, kind, privateId, outcome)
    case StepAddVirtual(privateId) => AddVirtual(h, privateId)
    case StepResume(c, resumeId, decoded) => Resume(h, c, resumeId, decoded)
    case StepUnregister(c, now) => Unregister(h, c, now)
    case StepBye(c, now) => Bye(h, c, now)
    case StepClose(ref) => CloseSession(h, ref)
    case StepExpire(ref, now) => ExpireOne(h, ref, now)
  }

  function Run(steps: seq<Step>): Hub {
    if steps == [] then INITIAL else Next(Run(steps[..|steps| - 1]), steps[|steps| - 1])
  }

  // ---- Invariant ----

  predicate Registered(h: Hub, ref: nat) {
    ref in h.objs && h.objs[ref].sid in h.sessions && h.sessions[h.objs[ref].sid] == ref
  }

  predicate Connected(h: Hub, ref: nat) {
    ref in h.objs && h.objs[ref].sid in h.clients
  }

  /** While the sid has not wrapped around, a session's number is its sid. */
  predicate SidsOk(h: Hub) {
    && (forall ref :: ref in h.objs ==> 0 < ref <= h.counter && h.objs[ref].sid == ref)
    && (forall sid :: sid in h.sessions ==> h.sessions[sid] == sid && sid in h.objs)
    && (forall sid :: sid in h.clients ==> sid in h.objs)
    && (forall ref :: ref in h.expired ==> ref in h.objs)
  }

  /**
   * A registered client session is connected or expiring and not both; a session that is not
   * registered is neither; a virtual session is neither. Its client points back to it.
   */
  predicate SessionOk(h: Hub, ref: nat)
    requires ref in h.objs
  {
    var s := h.objs[ref];
    && (ref in h.clients ==> ref in h.sessions && ref !in h.expired)
    && (ref in h.expired ==> ref in h.sessions)
    && (ref in h.sessions && !s.kind.VirtualKind? ==> ref in h.clients || ref in h.expired)
    && (s.kind.VirtualKind? ==> ref !in h.clients && ref !in h.expired)
    && (s.client.Some? <==> ref in h.clients)
    && (s.client.Some? ==>
          && h.clients[ref] == s.client.value
          && s.client.value in h.conns && h.conns[s.client.value].session == Some(ref))
  }

  predicate ClientOk(h: Hub, c: nat)
    requires c in h.conns
  {
    h.conns[c].session.Some? ==>
      h.conns[c].session.value in h.objs && h.objs[h.conns[c].session.value].client == Some(c)
  }

  predicate Inv(h: Hub) {
    && SidsOk(h)
    && (forall ref :: ref in h.objs ==> SessionOk(h, ref))
    && (forall c :: c in h.conns ==> ClientOk(h, c))
  }

  lemma NextSidIs(counter: nat)
    requires NextSid(counter) < UINT64
    ensures NextSid(counter) == counter + 1 && NextSid(counter) % UINT64 == NextSid(counter)
  {
  }

  lemma ConnectKeepsInv(h: Hub, c: nat)
    requires Inv(h)
    ensures Inv(Connect(h, c))
  {
    forall ref | ref in h.objs ensures SessionOk(Connect(h, c), ref) {
      assert SessionOk(h, ref);
    }
    forall d | d in h.conns ensures ClientOk(Connect(h, c), d) {
      assert ClientOk(h, d);
    }
  }

  lemma DropKeepsInv(h: Hub, c: nat)
    requires Inv(h)
    ensures Inv(Drop(h, c))
  {
    forall ref | ref in h.objs ensures SessionOk(Drop(h, c), ref) {
      assert SessionOk(h, ref);
    }
    forall d | d in h.conns ensures ClientOk(Drop(h, c), d) {
      assert ClientOk(h, d);
    }
  }

  lemma AddVirtualKeepsInv(h: Hub, privateId: string)
    requires Inv(h) && AddVirtual(h, privateId).counter < UINT64
    ensures Inv(AddVirtual(h, privateId))
  {
    var h' := AddVirtual(h, privateId);
    NextSidIs(h.counter);
    forall r | r in h'.objs ensures SessionOk(h', r) {
      if r != h'.counter { assert SessionOk(h, r); }
    }
    forall d | d in h'.conns ensures ClientOk(h', d) {
      assert ClientOk(h, d);
    }
  }

  lemma RegisterKeepsInv(h: Hub, c: nat, kind: Kind, privateId: string, outcome: Outcome)
    requires Inv(h) && Register(h, c, kind, privateId, outcome).counter < UINT64
    ensures Inv(Register(h, c, kind, privateId, outcome))
  {
    var h' := Register(h, c, kind, privateId, outcome);
    if h' != h {
      var ref := NextSid(NextSid(h.counter));
      assert h'.counter == ref;
      NextSidIs(NextSid(h.counter));
      NextSidIs(h.counter);
      RegisterKeepsSids(h, c, kind, privateId, outcome);
      forall r | r in h'.objs ensures SessionOk(h', r) {
        RegisterKeepsSession(h, c, kind, privateId, outcome, r);
      }
      forall d | d in h'.conns ensures ClientOk(h', d) {
        assert ClientOk(h, d);
      }
    }
  }

  lemma RegisterKeepsSids(h: Hub, c: nat, kind: Kind, privateId: string, outcome: Outcome)
    requires Inv(h) && Register(h, c, kind, privateId, outcome).counter == h.counter + 2 < UINT64
    ensures SidsOk(Register(h, c, kind, privateId, outcome))
  {
    NextSidIs(NextSid(h.counter));
    NextSidIs(h.counter);
  }

  lemma RegisterKeepsSession(h: Hub, c: nat, kind: Kind, privateId: string, outcome: Outcome, r: nat)
    requires Inv(h) && Register(h, c, kind, privateId, outcome).counter == h.counter + 2 < UINT64
    requires r in Register(h, c, kind, privateId, outcome).objs
    ensures SessionOk(Register(h, c, kind, privateId, outcome), r)
  {
    NextSidIs(NextSid(h.counter));
    NextSidIs(h.counter);
    if r in h.objs { assert SessionOk(h, r); }
  }

  lemma DetachKeepsClients(h: Hub, ref: nat, d: nat)
    requires Inv(h) && ref in h.objs && d in h.conns
    ensures ClientOk(Detach(h, ref), d)
  {
    assert SessionOk(h, ref) && ClientOk(h, d);
  }

  lemma CloseKeepsInv(h: Hub, ref: nat)
    requires Inv(h)
    ensures Inv(CloseSession(h, ref))
  {
    var h' := CloseSession(h, ref);
    if ref in h.objs {
      assert SessionOk(h, ref);
      forall r | r in h'.objs ensures SessionOk(h', r) {
        assert SessionOk(h, r);
      }
      forall d | d in h'.conns ensures ClientOk(h', d) {
        DetachKeepsClients(h, ref, d);
      }
    }
  }

  function Without(h: Hub, gone: set<nat>): Hub {
    h.(sessions := h.sessions - gone, expired := h.expired - gone)
  }

  lemma WithoutMore(h: Hub, gone: set<nat>, ref: nat)
    ensures Without(Without(h, gone), {ref}) == Without(h, gone + {ref})
  {
    assert (h.sessions - gone) - {ref} == h.sessions - (gone + {ref});
    assert (h.expired - gone) - {ref} == h.expired - (gone + {ref});
  }

  /** An expiring session has no client, so closing it only takes it out of two maps. */
  lemma CloseExpiring(h: Hub, ref: nat)
    requires Inv(h) && ref in h.expired
    ensures ref in h.objs && CloseSession(h, ref) == Without(h, {ref})
  {
    assert SessionOk(h, ref);
  }

  lemma UnregisterKeepsSession(h: Hub, c: nat, now: int, r: nat)
    requires Inv(h) && c in h.conns && r in h.objs
    ensures SessionOk(Unregister(h, c, now), r)
  {
    assert ClientOk(h, c) && SessionOk(h, r);
  }

  lemma UnregisterKeepsSids(h: Hub, c: nat, now: int)
    requires SidsOk(h)
    ensures SidsOk(Unregister(h, c, now))
  {
  }

  lemma UnregisterKeepsClient(h: Hub, c: nat, now: int, d: nat)
    requires Inv(h) && c in h.conns && d in h.conns
    ensures ClientOk(Unregister(h, c, now), d)
  {
    assert ClientOk(h, c) && ClientOk(h, d);
  }

  lemma UnregisterKeepsInv(h: Hub, c: nat, now: int)
    requires Inv(h)
    ensures Inv(Unregister(h, c, now))
  {
    var h' := Unregister(h, c, now);
    UnregisterKeepsSids(h, c, now);
    if c in h.conns {
      forall r | r in h'.objs ensures SessionOk(h', r) {
        UnregisterKeepsSession(h, c, now, r);
      }
      forall d | d in h'.conns ensures ClientOk(h', d) {
        UnregisterKeepsClient(h, c, now, d);
      }
    }
  }

  lemma ResumeKeepsSession(h: Hub, c: nat, resumeId: string, decoded: Option<nat>, r: nat)
    requires Inv(h) && MayHello(h, c) && Resumable(h, resumeId, decoded).Some? && r in h.objs
    ensures SessionOk(Resume(h, c, resumeId, decoded), r)
  {
    assert SessionOk(h, Resumable(h, resumeId, decoded).value) && ClientOk(h, c) && SessionOk(h, r);
  }

  lemma ResumeKeepsClient(h: Hub, c: nat, resumeId: string, decoded: Option<nat>, d: nat)
    requires Inv(h) && MayHello(h, c) && Resumable(h, resumeId, decoded).Some?
    requires d in Resume(h, c, resumeId, decoded).conns
    ensures ClientOk(Resume(h, c, resumeId, decoded), d)
  {
    var ref := Resumable(h, resumeId, decoded).value;
    assert SessionOk(h, ref);
    if d in h.conns { assert ClientOk(h, d); }
  }

  lemma ResumeKeepsSids(h: Hub, c: nat, resumeId: string, decoded: Option<nat>)
    requires SidsOk(h)
    ensures SidsOk(Resume(h, c, resumeId, decoded))
  {
  }

  lemma ResumeKeepsInv(h: Hub, c: nat, resumeId: string, decoded: Option<nat>)
    requires Inv(h)
    ensures Inv(Resume(h, c, resumeId, decoded))
  {
    var h' := Resume(h, c, resumeId, decoded);
    ResumeKeepsSids(h, c, resumeId, decoded);
    if MayHello(h, c) && Resumable(h, resumeId, decoded).Some? {
      forall r | r in h'.objs ensures SessionOk(h', r) {
        ResumeKeepsSession(h, c, resumeId, decoded, r);
      }
      forall d | d in h'.conns ensures ClientOk(h', d) {
        ResumeKeepsClient(h, c, resumeId, decoded, d);
      }
    }
  }

  lemma StepKeepsInv(h: Hub, step: Step)
    requires Inv(h) && Next(h, step).counter < UINT64
    ensures Inv(Next(h, step))
  {
    match step
    case StepConnect(c) => ConnectKeepsInv(h, c);
    case StepDrop(c) => DropKeepsInv(h, c);
    case StepRegister(c, kind, privateId, outcome) => RegisterKeepsInv(h, c, kind, privateId, outcome);
    case StepAddVirtual(privateId) => AddVirtualKeepsInv(h, privateId);
    case StepResume(c, resumeId, decoded) => ResumeKeepsInv(h, c, resumeId, decoded);
    case StepUnregister(c, now) => UnregisterKeepsInv(h, c, now);
    case StepBye(c, now) =>
      UnregisterKeepsInv(h, c, now);
      if c in h.conns && h.conns[c].session.Some? {
        CloseKeepsInv(Unregister(h, c, now), h.conns[c].session.value);
      }
    case StepClose(ref) => CloseKeepsInv(h, ref);
    case StepExpire(ref, now) => CloseKeepsInv(h, ref);
  }

  lemma CounterGrows(h: Hub, step: Step)
    ensures h.counter <= Next(h, step).counter && h.objs.Keys <= Next(h, step).objs.Keys
  {
  }

  lemma {:induction false} RunKeepsInv(steps: seq<Step>)
    requires Run(steps).counter < UINT64
    ensures Inv(Run(steps))
  {
    if steps != [] {
      var before, step := Run(steps[..|steps| - 1]), steps[|steps| - 1];
      CounterGrows(before, step);
      RunKeepsInv(steps[..|steps| - 1]);
      StepKeepsInv(before, step);
    }
  }

  function RunFrom(h: Hub, steps: seq<Step>): Hub {
    if steps == [] then h else Next(RunFrom(h, steps[..|steps| - 1]), steps[|steps| - 1])
  }

  lemma {:induction false} RunFromKeepsInv(h: Hub, steps: seq<Step>)
    requires Inv(h) && RunFrom(h, steps).counter < UINT64
    ensures Inv(RunFrom(h, steps))
  {
    if steps != [] {
      var before, step := RunFrom(h, steps[..|steps| - 1]), steps[|steps| - 1];
      CounterGrows(before, step);
      RunFromKeepsInv(h, steps[..|steps| - 1]);
      StepKeepsInv(before, step);
    }
  }

  // ---- Properties of every run in which the sid does not wrap around ----

  /**
   * Every registered client session is either connected or expiring and never both, a virtual
   * session is neither, and `client.session` and `session.client` are mutual inverses.
   */
  lemma LifecyclePartition(steps: seq<Step>, ref: nat, c: nat)
    requires Run(steps).counter < UINT64
    ensures var h := Run(steps);
      && (Registered(h, ref) && !h.objs[ref].kind.VirtualKind? ==> (Connected(h, ref) <==> ref !in h.expired))
      && (Connected(h, ref) || ref in h.expired ==> Registered(h, ref) && !h.objs[ref].kind.VirtualKind?)
      && ((c in h.conns && h.conns[c].session == Some(ref)) <==> (ref in h.objs && h.objs[ref].client == Some(c)))
      && (Connected(h, ref) ==> h.objs[ref].client == Some(h.clients[h.objs[ref].sid]))
  {
    RunKeepsInv(steps);
    var h := Run(steps);
    if ref in h.objs { assert SessionOk(h, ref); }
    if c in h.conns { assert ClientOk(h, c); }
  }

  lemma StepKeepsRemoved(h: Hub, step: Step, ref: nat)
    requires Inv(h) && Next(h, step).counter < UINT64
    requires ref in h.objs && !Registered(h, ref)
    ensures ref in Next(h, step).objs && !Registered(Next(h, step), ref)
  {
    CounterGrows(h, step);
    StepKeepsInv(h, step);
    SessionsGrow(h, step);
  }

  /** The only sid a step can add is a new one. */
  lemma SessionsGrow(h: Hub, step: Step)
    requires Inv(h) && Next(h, step).counter < UINT64
    ensures forall sid :: sid in Next(h, step).sessions ==> sid in h.sessions || sid > h.counter
  {
    if step.StepRegister? {
      if Next(h, step).counter != h.counter {
        NextSidIs(NextSid(h.counter));
        NextSidIs(h.counter);
      }
    } else if step.StepAddVirtual? {
      NextSidIs(h.counter);
    }
  }

  lemma LastStepKeepsRemoved(steps: seq<Step>, ref: nat)
    requires steps != [] && Run(steps).counter < UINT64
    ensures Run(steps[..|steps| - 1]).counter < UINT64
    ensures var before := Run(steps[..|steps| - 1]);
      ref in before.objs && !Registered(before, ref) ==> ref in Run(steps).objs && !Registered(Run(steps), ref)
  {
    var before, step := Run(steps[..|steps| - 1]), steps[|steps| - 1];
    CounterGrows(before, step);
    RunKeepsInv(steps[..|steps| - 1]);
    if ref in before.objs && !Registered(before, ref) { StepKeepsRemoved(before, step, ref); }
  }

  /** A session that was removed at some point of a run is never registered again. */
  lemma {:induction false} RemovedStaysRemoved(steps: seq<Step>, n: nat, ref: nat)
    requires n <= |steps| && Run(steps).counter < UINT64
    requires ref in Run(steps[..n]).objs && !Registered(Run(steps[..n]), ref)
    ensures ref in Run(steps).objs && !Registered(Run(steps), ref)
    decreases |steps|
  {
    if n == |steps| {
      assert steps[..n] == steps;
    } else {
      var before := steps[..|steps| - 1];
      assert before[..n] == steps[..n];
      LastStepKeepsRemoved(steps, ref);
      RemovedStaysRemoved(before, n, ref);
    }
  }

  // ---- Seen from one session, the hub is a small automaton ----

  datatype Phase = Unborn | Virtual | Live(client: nat) | Expiring(deadline: int) | Gone

  function PhaseOf(h: Hub, ref: nat): Phase {
    if ref !in h.objs then Unborn
    else if !Registered(h, ref) then Gone
    else if h.objs[ref].kind.VirtualKind? then Virtual
    else if h.objs[ref].client.Some? then Live(h.objs[ref].client.value)
    else Expiring(h.objs[ref].expires)
  }

  /** An open connection that has no session yet. */
  predicate IsFree(h: Hub, c: nat) {
    c in h.conns && h.conns[c] == Client(None, false)
  }

  /** The resume id is the private id of this registered client session, and decodes to its number. */
  predicate CanResume(h: Hub, ref: nat, resumeId: string, decoded: Option<nat>) {
    Registered(h, ref) && decoded == Some(ref) && h.objs[ref].privateId == resumeId && !h.objs[ref].kind.VirtualKind?
  }

  lemma ResumableIff(h: Hub, resumeId: string, decoded: Option<nat>, ref: nat, c: nat)
    requires Inv(h)
    ensures Resumable(h, resumeId, decoded) == Some(ref) <==> CanResume(h, ref, resumeId, decoded)
    ensures MayHello(h, c) <==> IsFree(h, c)
  {
  }

  /** What a step does to one session; new sessions take the next numbers. */
  function NextPhase(h: Hub, step: Step, ref: nat): Phase {
    var p := PhaseOf(h, ref);
    match step
    case StepRegister(c, kind, _, outcome) =>
      if ref != h.counter + 2 || !IsFree(h, c) || kind.VirtualKind? then p
      else if outcome.Accepted? then Live(c) else if outcome.LimitExceeded? then Gone else p
    case StepAddVirtual(_) => if ref == h.counter + 1 then Virtual else p
    case StepResume(c, resumeId, decoded) =>
      if IsFree(h, c) && CanResume(h, ref, resumeId, decoded) then Live(c) else p
    case StepUnregister(c, now) => if p == Live(c) then Expiring(now + 30_000_000_000) else p
    case StepBye(c, _) => if p == Live(c) then Gone else p
    case StepClose(r) => if r == ref && p != Unborn then Gone else p
    case StepExpire(r, now) => if r == ref && p.Expiring? && now > p.deadline then Gone else p
    case _ => p
  }

  lemma RegisterMoves(h: Hub, c: nat, kind: Kind, privateId: string, outcome: Outcome, ref: nat)
    requires Inv(h) && Register(h, c, kind, privateId, outcome).counter < UINT64
    ensures PhaseOf(Register(h, c, kind, privateId, outcome), ref)
      == NextPhase(h, StepRegister(c, kind, privateId, outcome), ref)
  {
    if MayHello(h, c) && !kind.VirtualKind? && !outcome.AuthFailed? {
      NextSidIs(NextSid(h.counter));
      NextSidIs(h.counter);
    }
  }

  lemma ResumeMoves(h: Hub, c: nat, resumeId: string, decoded: Option<nat>, ref: nat)
    requires Inv(h)
    ensures PhaseOf(Resume(h, c, resumeId, decoded), ref) == NextPhase(h, StepResume(c, resumeId, decoded), ref)
  {
    ResumableIff(h, resumeId, decoded, ref, c);
    if Resumable(h, resumeId, decoded) == Some(ref) {
      assert SessionOk(h, ref);
    }
  }

  lemma UnregisterMoves(h: Hub, c: nat, now: int, ref: nat)
    requires Inv(h)
    ensures PhaseOf(Unregister(h, c, now), ref) == NextPhase(h, StepUnregister(c, now), ref)
  {
    if ref in h.objs {
      assert SessionOk(h, ref);
    }
    if c in h.conns {
      assert ClientOk(h, c);
    }
  }

  lemma CloseMoves(h: Hub, r: nat, ref: nat)
    requires Inv(h)
    ensures PhaseOf(CloseSession(h, r), ref) == NextPhase(h, StepClose(r), ref)
  {
  }

  lemma ByeMoves(h: Hub, c: nat, now: int, ref: nat)
    requires Inv(h)
    ensures PhaseOf(Bye(h, c, now), ref) == NextPhase(h, StepBye(c, now), ref)
  {
    UnregisterKeepsInv(h, c, now);
    UnregisterMoves(h, c, now, ref);
    if c in h.conns {
      assert ClientOk(h, c);
      if h.conns[c].session.Some? {
        assert SessionOk(h, h.conns[c].session.value);
        CloseMoves(Unregister(h, c, now), h.conns[c].session.value, ref);
      }
    }
    if ref in h.objs {
      assert SessionOk(h, ref);
    }
  }

  lemma ExpireMoves(h: Hub, r: nat, now: int, ref: nat)
    requires Inv(h)
    ensures PhaseOf(ExpireOne(h, r, now), ref) == NextPhase(h, StepExpire(r, now), ref)
  {
    CloseMoves(h, r, ref);
    if ref in h.objs {
      assert SessionOk(h, ref);
    }
  }

  lemma StepMoves(h: Hub, step: Step, ref: nat)
    requires Inv(h) && Next(h, step).counter < UINT64
    ensures PhaseOf(Next(h, step), ref) == NextPhase(h, step, ref)
  {
    match step
    case StepRegister(c, kind, privateId, outcome) => RegisterMoves(h, c, kind, privateId, outcome, ref);
    case StepAddVirtual(_) => NextSidIs(h.counter);
    case StepResume(c, resumeId, decoded) => ResumeMoves(h, c, resumeId, decoded, ref);
    case StepUnregister(c, now) => UnregisterMoves(h, c, now, ref);
    case StepBye(c, now) => ByeMoves(h, c, now, ref);
    case StepClose(r) => CloseMoves(h, r, ref);
    case StepExpire(r, now) => ExpireMoves(h, r, now, ref);
    case _ =>
  }

  /** In every run each session moves through its phases on its own, exactly as the automaton says. */
  lemma LifecycleIsAutomaton(steps: seq<Step>, step: Step, ref: nat)
    requires Run(steps).counter < UINT64 && Next(Run(steps), step).counter < UINT64
    ensures PhaseOf(Next(Run(steps), step), ref) == NextPhase(Run(steps), step, ref)
  {
    RunKeepsInv(steps);
    StepMoves(Run(steps), step, ref);
  }

  /** The step is a resume that attaches client c to the session. */
  predicate Resumes(h: Hub, step: Step, c: nat, ref: nat) {
    step.StepResume? && step.c == c && IsFree(h, c) && CanResume(h, ref, step.resumeId, step.decoded)
  }

  /** The states of a run: before each step and after the last. */
  ghost predicate Trace(hs: seq<Hub>, steps: seq<Step>) {
    && |hs| == |steps| + 1 && hs[0] == INITIAL && hs[|steps|].counter < UINT64
    && forall i :: 0 <= i < |steps| ==> IsStep(hs, steps, i)
  }

  ghost predicate IsStep(hs: seq<Hub>, steps: seq<Step>, i: nat)
    requires |hs| == |steps| + 1 && i < |steps|
  {
    hs[i + 1] == Next(hs[i], steps[i])
  }

  lemma {:induction false} TraceIsRun(hs: seq<Hub>, steps: seq<Step>, n: nat)
    requires Trace(hs, steps) && n <= |steps|
    ensures hs[n] == Run(steps[..n])
  {
    if n > 0 {
      TraceIsRun(hs, steps, n - 1);
      assert IsStep(hs, steps, n - 1);
      assert steps[..n][..n - 1] == steps[..n - 1] && steps[..n][n - 1] == steps[n - 1];
    }
  }

  lemma {:induction false} TraceCounts(hs: seq<Hub>, steps: seq<Step>, n: nat)
    requires Trace(hs, steps) && n <= |steps|
    ensures hs[n].counter < UINT64
    decreases |steps| - n
  {
    if n < |steps| {
      TraceCounts(hs, steps, n + 1);
      CounterGrows(hs[n], steps[n]);
      assert IsStep(hs, steps, n);
    }
  }

  lemma TraceInv(hs: seq<Hub>, steps: seq<Step>, n: nat)
    requires Trace(hs, steps) && n <= |steps|
    ensures Inv(hs[n])
  {
    TraceCounts(hs, steps, n);
    TraceIsRun(hs, steps, n);
    RunKeepsInv(steps[..n]);
  }

  lemma TraceStep(hs: seq<Hub>, steps: seq<Step>, n: nat)
    requires Trace(hs, steps) && n < |steps|
    ensures Inv(hs[n]) && Next(hs[n], steps[n]).counter < UINT64 && hs[n + 1] == Next(hs[n], steps[n])
  {
    TraceInv(hs, steps, n);
    TraceCounts(hs, steps, n + 1);
    assert IsStep(hs, steps, n);
  }

  lemma StaysDetachedStep(h: Hub, step: Step, ref: nat, previous: nat)
    requires Inv(h) && Next(h, step).counter < UINT64
    requires PhaseOf(h, ref) !in {Unborn, Live(previous)} && !Resumes(h, step, previous, ref)
    ensures PhaseOf(Next(h, step), ref) !in {Unborn, Live(previous)}
  {
    StepMoves(h, step, ref);
  }

  /** The phases of one session along a run. */
  function Phases(hs: seq<Hub>, ref: nat): (ps: seq<Phase>)
    ensures |ps| == |hs| && forall i :: 0 <= i < |hs| ==> ps[i] == PhaseOf(hs[i], ref)
  {
    seq(|hs|, i requires 0 <= i < |hs| => PhaseOf(hs[i], ref))
  }

  lemma {:induction false} NeverReached(ps: seq<Phase>, n: nat, m: nat, bad: set<Phase>)
    requires n <= m < |ps| && ps[n] !in bad
    requires forall i :: n <= i < m && ps[i] !in bad ==> ps[i + 1] !in bad
    ensures ps[m] !in bad
  {
    if n < m { NeverReached(ps, n, m - 1, bad); }
  }

  lemma StaysDetachedAt(hs: seq<Hub>, steps: seq<Step>, i: nat, ref: nat, previous: nat)
    requires Trace(hs, steps) && i < |steps| && PhaseOf(hs[i], ref) !in {Unborn, Live(previous)}
    requires !Resumes(hs[i], steps[i], previous, ref)
    ensures PhaseOf(hs[i + 1], ref) !in {Unborn, Live(previous)}
  {
    TraceStep(hs, steps, i);
    StaysDetachedStep(hs[i], steps[i], ref, previous);
  }

  lemma {:induction false} StaysDetached(hs: seq<Hub>, steps: seq<Step>, n: nat, m: nat, ref: nat, previous: nat)
    requires Trace(hs, steps) && n <= m <= |steps| && PhaseOf(hs[n], ref) !in {Unborn, Live(previous)}
    requires forall i :: n <= i < m ==> !Resumes(hs[i], steps[i], previous, ref)
    ensures PhaseOf(hs[m], ref) !in {Unborn, Live(previous)}
  {
    if n < m {
      StaysDetached(hs, steps, n, m - 1, ref, previous);
      StaysDetachedAt(hs, steps, m - 1, ref, previous);
    }
  }

  lemma TakeoverStep(h: Hub, step: Step, ref: nat, c: nat, previous: nat)
    requires Inv(h) && PhaseOf(h, ref) == Live(previous) && Resumes(h, step, c, ref)
    ensures PhaseOf(Next(h, step), ref) == Live(c) && c != previous
  {
    assert SessionOk(h, ref);
    ResumeMoves(h, c, step.resumeId, step.decoded, ref);
  }

  /** A client that the session is not attached to can leave in either way without touching the session. */
  lemma LeavingKeepsPhase(h: Hub, c: nat, now: int, ref: nat)
    requires Inv(h) && PhaseOf(h, ref) != Live(c)
    ensures PhaseOf(Unregister(h, c, now), ref) == PhaseOf(h, ref) == PhaseOf(Bye(h, c, now), ref)
  {
    UnregisterMoves(h, c, now, ref);
    ByeMoves(h, c, now, ref);
  }

  /**
   * A takeover by resume stops the expiry, and the previous client never starts it again by leaving,
   * whatever happens in between, unless it resumes the session itself.
   */
  lemma TakeoverNeverExpires(hs: seq<Hub>, steps: seq<Step>, n: nat, ref: nat, c: nat, previous: nat, now: int)
    requires Trace(hs, steps) && n < |steps|
    requires PhaseOf(hs[n], ref) == Live(previous) && Resumes(hs[n], steps[n], c, ref)
    requires forall i :: n < i < |steps| ==> !Resumes(hs[i], steps[i], previous, ref)
    ensures PhaseOf(hs[n + 1], ref) == Live(c)
    ensures var h := hs[|steps|];
      PhaseOf(Unregister(h, previous, now), ref) == PhaseOf(h, ref) == PhaseOf(Bye(h, previous, now), ref)
  {
    TraceStep(hs, steps, n);
    TakeoverStep(hs[n], steps[n], ref, c, previous);
    StaysDetached(hs, steps, n + 1, |steps|, ref, previous);
    TraceInv(hs, steps, |steps|);
    LeavingKeepsPhase(hs[|steps|], previous, now, ref);
  }

  /** A disconnect of the previous client right after a takeover changes no session at all. */
  lemma DisconnectAfterTakeover(h: Hub, c: nat, resumeId: string, decoded: Option<nat>, previous: nat, now: int)
    requires Inv(h) && MayHello(h, c) && Resumable(h, resumeId, decoded).Some?
    requires h.objs[Resumable(h, resumeId, decoded).value].client == Some(previous)
    ensures var ref, h' := Resumable(h, resumeId, decoded).value, Resume(h, c, resumeId, decoded);
      var h'' := Unregister(h', previous, now);
      && Connected(h', ref) && h'.objs[ref].client == Some(c) && ref !in h'.expired
      && h''.sessions == h'.sessions && h''.clients == h'.clients && h''.expired == h'.expired
      && h''.objs == h'.objs
  {
    assert SessionOk(h, Resumable(h, resumeId, decoded).value) && ClientOk(h, c);
  }

  /** The hub with one client, whose session has the number 2. */
  const FIRST_SESSION := Hub(2, map[2 := 2], map[2 := 1], {},
    map[2 := Session(2, ClientKind, "id", Some(1), 0)], map[1 := Client(Some(2), false)])

  lemma FirstSession()
    ensures Run([StepConnect(1), StepRegister(1, ClientKind, "id", Accepted)]) == FIRST_SESSION
  {
    var s1, s2 := StepConnect(1), StepRegister(1, ClientKind, "id", Accepted);
    assert [s1, s2][..1] == [s1] && [s1][..0] == [];
    assert NextSid(NextSid(0)) == 2;
    assert Run([]) == INITIAL;
    assert Run([s1]) == Connect(INITIAL, 1);
  }

  /** An expiring session is gone once its deadline has passed. */
  function Aged(p: Phase, now: int): Phase {
    if p.Expiring? && now > p.deadline then Gone else p
  }

  lemma WithoutDueAges(h: Hub, now: int)
    requires Inv(h)
    ensures forall ref :: PhaseOf(Without(h, AllDue(h, now)), ref) == Aged(PhaseOf(h, ref), now)
  {
    forall ref ensures PhaseOf(Without(h, AllDue(h, now)), ref) == Aged(PhaseOf(h, ref), now) {
      if ref in h.objs { assert SessionOk(h, ref); }
    }
  }

  // ---- What stays the same about a session, and how its client moves ----

  predicate SameIdentity(s: Session, s': Session) {
    s'.sid == s.sid && s'.kind == s.kind && s'.privateId == s.privateId
  }

  lemma HandlersKeepIdentity(h: Hub, c: nat, resumeId: string, decoded: Option<nat>, now: int, r: nat, ref: nat)
    requires ref in h.objs
    ensures var a := Resume(h, c, resumeId, decoded); ref in a.objs && SameIdentity(h.objs[ref], a.objs[ref])
    ensures var a := Unregister(h, c, now); ref in a.objs && SameIdentity(h.objs[ref], a.objs[ref])
    ensures var a := CloseSession(h, r); ref in a.objs && SameIdentity(h.objs[ref], a.objs[ref])
  {
  }

  /** No session ever changes its number, its kind or its private id. */
  lemma IdentityIsFixed(h: Hub, step: Step, ref: nat)
    requires Inv(h) && Next(h, step).counter < UINT64 && ref in h.objs
    ensures ref in Next(h, step).objs && SameIdentity(h.objs[ref], Next(h, step).objs[ref])
  {
    match step
    case StepRegister(c, kind, privateId, outcome) => RegisterKeepsIdentity(h, c, kind, privateId, outcome, ref);
    case StepAddVirtual(_) => NextSidIs(h.counter);
    case StepResume(c, resumeId, decoded) => HandlersKeepIdentity(h, c, resumeId, decoded, 0, 0, ref);
    case StepUnregister(c, now) => HandlersKeepIdentity(h, c, "", None, now, 0, ref);
    case StepBye(c, now) =>
      HandlersKeepIdentity(h, c, "", None, now, 0, ref);
      if c in h.conns && h.conns[c].session.Some? {
        HandlersKeepIdentity(Unregister(h, c, now), c, "", None, now, h.conns[c].session.value, ref);
      }
    case StepClose(r) => HandlersKeepIdentity(h, 0, "", None, 0, r, ref);
    case StepExpire(r, now) => HandlersKeepIdentity(h, 0, "", None, now, r, ref);
    case _ =>
  }

  lemma RegisterKeepsIdentity(h: Hub, c: nat, kind: Kind, privateId: string, outcome: Outcome, ref: nat)
    requires Inv(h) && Register(h, c, kind, privateId, outcome).counter < UINT64 && ref in h.objs
    ensures var h' := Register(h, c, kind, privateId, outcome);
      ref in h'.objs && SameIdentity(h.objs[ref], h'.objs[ref])
  {
    if MayHello(h, c) && !kind.VirtualKind? && !outcome.AuthFailed? {
      NextSidIs(NextSid(h.counter));
      NextSidIs(h.counter);
    }
  }

  /** A new session is recorded as it was asked for. */
  lemma NewSessionIs(h: Hub, c: nat, kind: Kind, privateId: string)
    requires IsFree(h, c) && !kind.VirtualKind? && Register(h, c, kind, privateId, Accepted).counter < UINT64
    ensures var n, h' := h.counter + 2, Register(h, c, kind, privateId, Accepted);
      n in h'.objs && h'.objs[n] == Session(n, kind, privateId, Some(c), 0)
  {
    NextSidIs(NextSid(h.counter));
    NextSidIs(h.counter);
  }

  lemma NewVirtualSessionIs(h: Hub, privateId: string)
    requires AddVirtual(h, privateId).counter < UINT64
    ensures var n, h' := h.counter + 1, AddVirtual(h, privateId);
      n in h'.objs && h'.objs[n] == Session(n, VirtualKind, privateId, None, 0)
  {
    NextSidIs(h.counter);
  }

  /** A registration takes two numbers once the client is authenticated, a virtual session one. */
  lemma CounterStep(h: Hub, step: Step)
    requires Next(h, step).counter < UINT64
    ensures Next(h, step).counter == h.counter +
      if step.StepRegister? && IsFree(h, step.c) && !step.kind.VirtualKind? && !step.outcome.AuthFailed? then 2
      else if step.StepAddVirtual? then 1 else 0
  {
    if step.StepRegister? && Next(h, step) != h {
      NextSidIs(NextSid(h.counter));
      NextSidIs(h.counter);
    } else if step.StepAddVirtual? {
      NextSidIs(h.counter);
    }
  }

  function ConnOf(h: Hub, c: nat): Option<Client> {
    if c in h.conns then Some(h.conns[c]) else None
  }

  /** The client loses its session when that is closed or taken over. */
  function Detached(conn: Option<Client>, ref: nat): Option<Client> {
    if conn.Some? && conn.value.session == Some(ref) then Some(conn.value.(session := None)) else conn
  }

  /** What a step does to one client. */
  function NextConn(h: Hub, step: Step, c: nat): Option<Client> {
    var conn := ConnOf(h, c);
    match step
    case StepConnect(d) => if d == c && conn.None? then Some(Client(None, false)) else conn
    case StepDrop(d) => if d == c && conn.Some? then Some(conn.value.(closed := true)) else conn
    case StepRegister(d, kind, _, outcome) =>
      if d == c && IsFree(h, c) && !kind.VirtualKind? && outcome.Accepted? then Some(Client(Some(h.counter + 2), false))
      else conn
    case StepAddVirtual(_) => conn
    case StepResume(d, resumeId, decoded) =>
      if !IsFree(h, d) || decoded.None? || !CanResume(h, decoded.value, resumeId, decoded) then conn
      else if d == c then Some(Client(decoded, false))
      else Detached(conn, decoded.value)
    case StepUnregister(d, _) => if d == c && conn.Some? then Some(Client(None, true)) else conn
    case StepBye(d, _) => if d == c && conn.Some? then Some(Client(None, true)) else conn
    case StepClose(ref) => Detached(conn, ref)
    case StepExpire(_, _) => conn
  }

  lemma CloseDetaches(h: Hub, ref: nat, c: nat)
    requires Inv(h)
    ensures ConnOf(CloseSession(h, ref), c) == Detached(ConnOf(h, c), ref)
  {
    if ref in h.objs { assert SessionOk(h, ref); }
    if c in h.conns { assert ClientOk(h, c); }
  }

  lemma RegisterConn(h: Hub, d: nat, kind: Kind, privateId: string, outcome: Outcome, c: nat)
    requires Inv(h) && Register(h, d, kind, privateId, outcome).counter < UINT64
    ensures ConnOf(Register(h, d, kind, privateId, outcome), c)
      == NextConn(h, StepRegister(d, kind, privateId, outcome), c)
  {
    if MayHello(h, d) && !kind.VirtualKind? && !outcome.AuthFailed? {
      NextSidIs(NextSid(h.counter));
      NextSidIs(h.counter);
    }
  }

  lemma ResumeConn(h: Hub, d: nat, resumeId: string, decoded: Option<nat>, c: nat)
    requires Inv(h)
    ensures ConnOf(Resume(h, d, resumeId, decoded), c) == NextConn(h, StepResume(d, resumeId, decoded), c)
  {
    if decoded.Some? { ResumableIff(h, resumeId, decoded, decoded.value, d); }
    if Resumable(h, resumeId, decoded).Some? { assert SessionOk(h, Resumable(h, resumeId, decoded).value); }
    if c in h.conns { assert ClientOk(h, c); }
  }

  lemma ByeConn(h: Hub, d: nat, now: int, c: nat)
    requires Inv(h)
    ensures ConnOf(Bye(h, d, now), c) == NextConn(h, StepBye(d, now), c)
  {
    UnregisterKeepsInv(h, d, now);
    if c in h.conns { assert ClientOk(h, c); }
    if d in h.conns && h.conns[d].session.Some? {
      assert ClientOk(h, d);
      CloseDetaches(Unregister(h, d, now), h.conns[d].session.value, c);
    }
  }

  lemma ExpireConn(h: Hub, ref: nat, now: int, c: nat)
    requires Inv(h)
    ensures ConnOf(ExpireOne(h, ref, now), c) == ConnOf(h, c)
  {
    if Due(h, ref, now) { CloseExpiring(h, ref); }
  }

  /** In every run each client moves exactly as its own automaton says. */
  lemma ClientIsAutomaton(steps: seq<Step>, step: Step, c: nat)
    requires Run(steps).counter < UINT64 && Next(Run(steps), step).counter < UINT64
    ensures ConnOf(Next(Run(steps), step), c) == NextConn(Run(steps), step, c)
  {
    RunKeepsInv(steps);
    StepMovesClient(Run(steps), step, c);
  }

  lemma StepMovesClient(h: Hub, step: Step, c: nat)
    requires Inv(h) && Next(h, step).counter < UINT64
    ensures ConnOf(Next(h, step), c) == NextConn(h, step, c)
  {
    match step
    case StepRegister(d, kind, privateId, outcome) => RegisterConn(h, d, kind, privateId, outcome, c);
    case StepResume(d, resumeId, decoded) => ResumeConn(h, d, resumeId, decoded, c);
    case StepBye(d, now) => ByeConn(h, d, now, c);
    case StepClose(ref) => CloseDetaches(h, ref, c);
    case StepExpire(ref, now) => ExpireConn(h, ref, now, c);
    case _ =>
  }

  // ---- Closing an expired session after releasing the hub lock ----

  predicate Attaches(h: Hub, step: Step, ref: nat) {
    step.StepResume? && Resumes(h, step, step.c, ref)
  }

  /** The step takes its client away from the session, or closes the session. */
  predicate Detaches(h: Hub, step: Step, ref: nat) {
    match step
    case StepUnregister(c, _) => PhaseOf(h, ref) == Live(c)
    case StepBye(c, _) => PhaseOf(h, ref) == Live(c)
    case StepClose(r) => r == ref
    case _ => false
  }

  lemma LivenessStep(h: Hub, step: Step, ref: nat)
    requires Inv(h) && Next(h, step).counter < UINT64 && PhaseOf(h, ref) !in {Unborn, Virtual}
    ensures PhaseOf(Next(h, step), ref) !in {Unborn, Virtual}
    ensures PhaseOf(Next(h, step), ref).Live? <==>
      Attaches(h, step, ref) || (PhaseOf(h, ref).Live? && !Detaches(h, step, ref))
  {
    StepMoves(h, step, ref);
  }

  /** Resume i attached a client to the session that has not left since. */
  ghost predicate AttachedSince(hs: seq<Hub>, steps: seq<Step>, i: nat, ref: nat)
    requires |hs| == |steps| + 1 && i < |steps|
  {
    Attaches(hs[i], steps[i], ref) && forall k :: i < k < |steps| ==> !Detaches(hs[k], steps[k], ref)
  }

  /** Event i set a flag and no later one before m cleared it. */
  predicate SetSince(sets: seq<bool>, clears: seq<bool>, i: nat, m: nat)
    requires i < m <= |sets| && m <= |clears|
  {
    sets[i] && forall k :: i < k < m ==> !clears[k]
  }

  lemma {:induction false} FlagIffSetSince(flag: seq<bool>, sets: seq<bool>, clears: seq<bool>, n: nat, m: nat)
    requires n <= m < |flag| && m <= |sets| && m <= |clears| && !flag[n]
    requires forall i :: n <= i < m ==> (flag[i + 1] <==> sets[i] || (flag[i] && !clears[i]))
    ensures flag[m] <==> exists i :: n <= i < m && SetSince(sets, clears, i, m)
  {
    if n < m {
      FlagIffSetSince(flag, sets, clears, n, m - 1);
      if flag[m] && !sets[m - 1] {
        var i :| n <= i < m - 1 && SetSince(sets, clears, i, m - 1);
        assert SetSince(sets, clears, i, m);
      } else if flag[m] {
        assert SetSince(sets, clears, m - 1, m);
      } else if exists i :: n <= i < m && SetSince(sets, clears, i, m) {
        var i :| n <= i < m && SetSince(sets, clears, i, m);
        assert i < m - 1 ==> SetSince(sets, clears, i, m - 1);
      }
    }
  }

  function AttachFlags(hs: seq<Hub>, steps: seq<Step>, ref: nat): (fs: seq<bool>)
    requires |hs| == |steps| + 1
    ensures |fs| == |steps| && forall i :: 0 <= i < |fs| ==> fs[i] == Attaches(hs[i], steps[i], ref)
  {
    seq(|steps|, i requires 0 <= i < |steps| => Attaches(hs[i], steps[i], ref))
  }

  function DetachFlags(hs: seq<Hub>, steps: seq<Step>, ref: nat): (fs: seq<bool>)
    requires |hs| == |steps| + 1
    ensures |fs| == |steps| && forall i :: 0 <= i < |fs| ==> fs[i] == Detaches(hs[i], steps[i], ref)
  {
    seq(|steps|, i requires 0 <= i < |steps| => Detaches(hs[i], steps[i], ref))
  }

  function LiveFlags(ps: seq<Phase>): (fs: seq<bool>)
    ensures |fs| == |ps| && forall i :: 0 <= i < |fs| ==> fs[i] == ps[i].Live?
  {
    seq(|ps|, i requires 0 <= i < |ps| => ps[i].Live?)
  }

  lemma AttachedSinceIsSet(hs: seq<Hub>, steps: seq<Step>, n: nat, ref: nat)
    requires |hs| == |steps| + 1
    ensures var sets, clears := AttachFlags(hs, steps, ref), DetachFlags(hs, steps, ref);
      (exists i :: n <= i < |steps| && AttachedSince(hs, steps, i, ref)) <==>
        exists i :: n <= i < |steps| && SetSince(sets, clears, i, |steps|)
  {
    var sets, clears := AttachFlags(hs, steps, ref), DetachFlags(hs, steps, ref);
    forall i: nat | n <= i < |steps|
      ensures AttachedSince(hs, steps, i, ref) <==> SetSince(sets, clears, i, |steps|)
    {
      assert forall k :: i < k < |steps| ==> clears[k] == Detaches(hs[k], steps[k], ref);
    }
  }

  lemma LivenessAt(hs: seq<Hub>, steps: seq<Step>, i: nat, ref: nat)
    requires Trace(hs, steps) && i < |steps| && PhaseOf(hs[i], ref) !in {Unborn, Virtual}
    ensures PhaseOf(hs[i + 1], ref) !in {Unborn, Virtual}
    ensures PhaseOf(hs[i + 1], ref).Live? <==>
      Attaches(hs[i], steps[i], ref) || (PhaseOf(hs[i], ref).Live? && !Detaches(hs[i], steps[i], ref))
  {
    TraceStep(hs, steps, i);
    LivenessStep(hs[i], steps[i], ref);
  }

  lemma LivenessAlong(hs: seq<Hub>, steps: seq<Step>, n: nat, ref: nat)
    requires Trace(hs, steps) && n <= |steps| && PhaseOf(hs[n], ref) !in {Unborn, Virtual}
    ensures var live, sets, clears :=
        LiveFlags(Phases(hs, ref)), AttachFlags(hs, steps, ref), DetachFlags(hs, steps, ref);
      forall i :: n <= i < |steps| ==> (live[i + 1] <==> sets[i] || (live[i] && !clears[i]))
  {
    var ps, bad := Phases(hs, ref), {Unborn, Virtual};
    forall i | n <= i < |steps| && ps[i] !in bad ensures ps[i + 1] !in bad {
      LivenessAt(hs, steps, i, ref);
    }
    forall i | n <= i < |steps|
      ensures ps[i + 1].Live? <==> Attaches(hs[i], steps[i], ref) || (ps[i].Live? && !Detaches(hs[i], steps[i], ref))
    {
      NeverReached(ps, n, i, bad);
      LivenessAt(hs, steps, i, ref);
    }
  }

  /** A session that was expiring is in use again exactly if it was resumed and not left since. */
  lemma LiveIffResumed(hs: seq<Hub>, steps: seq<Step>, n: nat, ref: nat)
    requires Trace(hs, steps) && n <= |steps| && PhaseOf(hs[n], ref).Expiring?
    ensures PhaseOf(hs[|steps|], ref).Live? <==> exists i :: n <= i < |steps| && AttachedSince(hs, steps, i, ref)
  {
    var live, sets, clears := LiveFlags(Phases(hs, ref)), AttachFlags(hs, steps, ref), DetachFlags(hs, steps, ref);
    LivenessAlong(hs, steps, n, ref);
    FlagIffSetSince(live, sets, clears, n, |steps|);
    AttachedSinceIsSet(hs, steps, n, ref);
  }

  /**
   * Housekeeping tests the deadline under the lock, releases the lock and closes the session after that.
   * With any steps in between, the close takes a session away from a client that is using it exactly
   * when a resume has attached one that has not left since.
   */
  lemma StaleExpiry(hs: seq<Hub>, steps: seq<Step>, n: nat, ref: nat, now: int)
    requires Trace(hs, steps) && n <= |steps| && Due(hs[n], ref, now)
    ensures PhaseOf(hs[|steps|], ref).Live? <==> exists i :: n <= i < |steps| && AttachedSince(hs, steps, i, ref)
    ensures PhaseOf(CloseSession(hs[|steps|], ref), ref) == Gone && Inv(CloseSession(hs[|steps|], ref))
  {
    TraceInv(hs, steps, n);
    DueIsExpiring(hs[n], ref, now);
    LiveIffResumed(hs, steps, n, ref);
    TraceInv(hs, steps, |steps|);
    StaysBorn(hs, steps, n, ref);
    CloseMoves(hs[|steps|], ref, ref);
    CloseKeepsInv(hs[|steps|], ref);
  }

  lemma DueIsExpiring(h: Hub, ref: nat, now: int)
    requires Inv(h) && Due(h, ref, now)
    ensures PhaseOf(h, ref).Expiring?
  {
    assert SessionOk(h, ref);
  }

  lemma StaysBorn(hs: seq<Hub>, steps: seq<Step>, n: nat, ref: nat)
    requires Trace(hs, steps) && n <= |steps| && PhaseOf(hs[n], ref) != Unborn
    ensures PhaseOf(hs[|steps|], ref) != Unborn
  {
    var ps := Phases(hs, ref);
    forall i | n <= i < |steps| && ps[i] !in {Unborn} ensures ps[i + 1] !in {Unborn} {
      TraceStep(hs, steps, i);
      CounterGrows(hs[i], steps[i]);
    }
    NeverReached(ps, n, |steps|, {Unborn});
  }

  /** With a resume in between, the session is closed under its new client. */
  lemma StaleExpiryClosesResumedSession() returns (h: Hub, resumed: Hub, closed: Hub)
    ensures h ==
      Run([StepConnect(1), StepRegister(1, ClientKind, "id", Accepted), StepUnregister(1, 0), StepConnect(2)])
    ensures Due(h, 2, SESSION_EXPIRE_DURATION + 1)
    ensures resumed == Resume(h, 2, "id", Some(2)) && PhaseOf(resumed, 2) == Live(2)
    ensures closed == CloseSession(resumed, 2) && PhaseOf(closed, 2) == Gone
    ensures 2 in closed.conns && closed.conns[2] == Client(None, false)
  {
    var s1, s2 := StepConnect(1), StepRegister(1, ClientKind, "id", Accepted);
    var s3, s4 := StepUnregister(1, 0), StepConnect(2);
    assert [s1, s2, s3, s4][..3] == [s1, s2, s3] && [s1, s2, s3][..2] == [s1, s2];
    FirstSession();
    var h3 := Unregister(FIRST_SESSION, 1, 0);
    assert Run([s1, s2, s3]) == h3;
    h := Connect(h3, 2);
    assert Run([s1, s2, s3, s4]) == h;
    resumed := Resume(h, 2, "id", Some(2));
    closed := CloseSession(resumed, 2);
  }

  // ---- Reading the session before taking the hub lock ----

  /**
   * processUnregister reads the client's session before it takes the lock. If other handlers run in
   * between, the rest of it keeps the invariant exactly when the session it read is still registered
   * and has not been attached to another client.
   */
  lemma StaleUnregister(h: Hub, c: nat, ref: nat, now: int)
    requires Inv(h) && c in h.conns && ref in h.objs && !h.objs[ref].kind.VirtualKind?
    requires h.conns[c].session in {None, Some(ref)}
    ensures Inv(UnregisterRead(h, c, Some(ref), now)) <==>
      Registered(h, ref) && h.objs[ref].client in {None, Some(c)}
  {
    var h' := UnregisterRead(h, c, Some(ref), now);
    assert SessionOk(h, ref) && ClientOk(h, c);
    if Registered(h, ref) && h.objs[ref].client in {None, Some(c)} {
      forall r | r in h'.objs ensures SessionOk(h', r) {
        assert SessionOk(h, r);
      }
      forall d | d in h'.conns ensures ClientOk(h', d) {
        assert ClientOk(h, d);
      }
    } else {
      assert !SessionOk(h', ref);
    }
  }

  /**
   * With a resume in between, the session ends up attached to its new client and expiring at the
   * same time, and housekeeping closes it although that client is still there.
   */
  lemma StaleUnregisterExpiresResumedSession() returns (h: Hub, resumed: Hub, stale: Hub, later: Hub)
    ensures h == Run([StepConnect(1), StepRegister(1, ClientKind, "id", Accepted), StepConnect(2)])
    ensures resumed == Resume(h, 2, "id", Some(2))
    ensures 1 in h.conns && 1 in resumed.conns && stale == UnregisterRead(resumed, 1, h.conns[1].session, 0)
    ensures later == ExpireOne(stale, 2, SESSION_EXPIRE_DURATION + 1)
    ensures 2 in stale.objs && stale.objs[2].client == Some(2) && 2 in stale.expired && !Connected(stale, 2)
    ensures 2 in stale.conns && !stale.conns[2].closed
    ensures !Registered(later, 2) && 2 in later.conns && later.conns[2] == Client(None, false)
  {
    var s1, s2, s3 := StepConnect(1), StepRegister(1, ClientKind, "id", Accepted), StepConnect(2);
    assert [s1, s2, s3][..2] == [s1, s2];
    FirstSession();
    h := Connect(FIRST_SESSION, 2);
    assert Run([s1, s2, s3]) == h;
    resumed := Resume(h, 2, "id", Some(2));
    stale := UnregisterRead(resumed, 1, h.conns[1].session, 0);
    later := ExpireOne(stale, 2, SESSION_EXPIRE_DURATION + 1);
  }
}

/** The hub as an object; each method is one handler. */
module Hubs {
  import opened Options
  import S = HubSpec

  class Hub {
    var counter: nat
    var sessions: map<nat, nat>
    var clients: map<nat, nat>
    var expired: set<nat>
    var objs: map<nat, S.Session>
    var conns: map<nat, S.Client>

    ghost function View(): S.Hub
      reads this
    {
      S.Hub(counter, sessions, clients, expired, objs, conns)
    }

    constructor ()
      ensures View() == S.INITIAL && S.Inv(View())
    {
      counter, sessions, clients, expired, objs, conns := 0, map[], map[], {}, map[], map[];
    }

    method NextSid() returns (sid: nat)
      modifies this`counter
      ensures counter == S.NextSid(old(counter)) && sid == counter % 0x1_0000_0000_0000_0000 && sid != 0
      ensures counter == old(counter) + if (old(counter) + 1) % 0x1_0000_0000_0000_0000 == 0 then 2 else 1
    {
      counter := counter + 1;
      sid := counter % S.UINT64;
      while sid == 0
        invariant sid == counter % S.UINT64
        invariant counter == old(counter) + 1 || (counter == old(counter) + 2 && (old(counter) + 1) % S.UINT64 == 0)
        decreases old(counter) + 2 - counter
      {
        counter := counter + 1;
        sid := counter % S.UINT64;
      }
    }

    /** Attaches a client to a session and returns the one it takes over from; its own client changes nothing. */
    method SetClient(ref: nat, c: nat) returns (previous: Option<nat>)
      requires ref in objs && c in conns
      modifies this`objs, this`conns
      ensures old(objs[ref].client) == Some(c) ==> previous == None && View() == old(View())
      ensures old(objs[ref].client) != Some(c) ==>
        && previous == old(objs[ref].client)
        && var d := S.Detach(old(View()), ref);
           View() == d.(objs := d.objs[ref := d.objs[ref].(client := Some(c))],
                        conns := d.conns[c := d.conns[c].(session := Some(ref))])
    {
      if objs[ref].client == Some(c) {
        return None;
      }
      previous := objs[ref].client;
      conns := conns[c := conns[c].(session := Some(ref))];
      if previous.Some? {
        ClearClient(ref, previous);
      }
      objs := objs[ref := objs[ref].(client := Some(c))];
      assert objs == old(objs)[ref := old(objs)[ref].(client := Some(c))];
    }

    /** Detaches the session's client if it is the given one; None stands for whichever it has. */
    method ClearClient(ref: nat, c: Option<nat>)
      requires ref in objs
      modifies this`objs, this`conns
      ensures View() == if c.Some? && old(objs[ref].client) != c then old(View()) else S.Detach(old(View()), ref)
    {
      var client := objs[ref].client;
      if client.None? || (c.Some? && client != c) {
        return;
      }
      objs := objs[ref := objs[ref].(client := None)];
      if client.value in conns {
        conns := conns[client.value := conns[client.value].(session := None)];
      }
    }

    method CloseSession(ref: nat)
      requires S.Inv(View())
      modifies this
      ensures View() == S.CloseSession(old(View()), ref) && S.Inv(View())
    {
      S.CloseKeepsInv(View(), ref);
      if ref in objs {
        var sid := objs[ref].sid;
        clients := clients - {sid};
        if sid in sessions {
          sessions := sessions - {sid};
        }
        expired := expired - {ref};
        ClearClient(ref, None);
      }
    }

    /** `outcome` is what the authentication, the id encoder and the backend's session limit answered. */
    method ProcessRegister(c: nat, kind: S.Kind, privateId: string, outcome: S.Outcome)
      modifies this
      ensures View() == S.Register(old(View()), c, kind, privateId, outcome)
    {
      if c !in conns || conns[c].session.Some? || conns[c].closed || kind.VirtualKind? || outcome.AuthFailed? {
        return;
      }
      var unused := NextSid();
      var sid := NextSid();
      if outcome.IdsFailed? {
        return;
      }
      var ref := counter;
      objs := objs[ref := S.Session(sid, kind, privateId, None, 0)];
      if outcome.LimitExceeded? {
        sessions, clients, expired := sessions - {sid}, clients - {sid}, expired - {ref};
        return;
      }
      conns := conns[c := conns[c].(session := Some(ref))];
      objs := objs[ref := objs[ref].(client := Some(c))];
      sessions := sessions[sid := ref];
      clients := clients[sid := c];
    }

    method ProcessResume(c: nat, resumeId: string, decoded: Option<nat>) returns (ok: bool)
      requires S.Inv(View())
      modifies this
      ensures View() == S.Resume(old(View()), c, resumeId, decoded) && S.Inv(View())
      ensures ok <==>
        S.IsFree(old(View()), c) && decoded.Some? && S.CanResume(old(View()), decoded.value, resumeId, decoded)
    {
      if decoded.Some? { S.ResumableIff(View(), resumeId, decoded, decoded.value, c); }
      S.ResumeKeepsInv(View(), c, resumeId, decoded);
      if c !in conns || conns[c].session.Some? || decoded.None? || decoded.value !in sessions {
        return false;
      }
      var ref := sessions[decoded.value];
      if objs[ref].privateId != resumeId || objs[ref].kind.VirtualKind? || conns[c].closed {
        return false;
      }
      assert S.SessionOk(View(), ref) && S.ClientOk(View(), c);
      var previous := SetClient(ref, c);
      expired := expired - {ref};
      clients := clients[decoded.value := c];
      return true;
    }

    method ProcessUnregister(c: nat, now: int)
      requires c in conns && conns[c].session.Some? ==> conns[c].session.value in objs
      modifies this
      ensures View() == S.Unregister(old(View()), c, now)
    {
      if c !in conns {
        return;
      }
      var session := conns[c].session;
      if session.Some? {
        var ref := session.value;
        clients := clients - {objs[ref].sid};
        objs := objs[ref := objs[ref].(expires := now + S.SESSION_EXPIRE_DURATION)];
        expired := expired + {ref};
        ClearClient(ref, Some(c));
      }
      conns := conns[c := S.Client(None, true)];
    }

    method CloseExpired(ref: nat)
      requires S.Inv(View()) && ref in expired
      modifies this
      ensures S.Inv(View()) && View() == S.Without(old(View()), {ref})
    {
      S.CloseExpiring(View(), ref);
      CloseSession(ref);
      assert expired - {ref} == expired;
      expired := expired - {ref};
    }

    /**
     * What housekeeping does for one session: it tests the deadline, releases the lock while the other
     * handlers take their steps, and closes the session.
     */
    method ExpireSession(ref: nat, now: int, others: seq<S.Step>) returns (closed: bool)
      requires S.Inv(View()) && S.RunFrom(View(), others).counter < S.UINT64
      modifies this
      ensures closed <==> S.Due(old(View()), ref, now)
      ensures View() == if closed then S.CloseSession(S.RunFrom(old(View()), others), ref) else old(View())
      ensures S.Inv(View())
    {
      closed := ref in expired && ref in objs && now > objs[ref].expires;
      if !closed {
        return;
      }
      OtherHandlers(others);
      CloseSession(ref);
    }

    /** What the other handlers do while the lock is free. */
    method OtherHandlers(steps: seq<S.Step>)
      requires S.Inv(View()) && S.RunFrom(View(), steps).counter < S.UINT64
      modifies this
      ensures View() == S.RunFrom(old(View()), steps) && S.Inv(View())
    {
      S.RunFromKeepsInv(View(), steps);
      var h := S.RunFrom(S.Hub(counter, sessions, clients, expired, objs, conns), steps);
      counter, sessions, clients, expired, objs, conns :=
        h.counter, h.sessions, h.clients, h.expired, h.objs, h.conns;
    }

    /** Housekeeping that nothing disturbs closes exactly the expiring sessions whose deadline has passed. */
    method CheckExpiredSessions(now: int)
      requires S.Inv(View())
      modifies this
      ensures S.Inv(View()) && View() == S.Without(old(View()), S.AllDue(old(View()), now))
      ensures forall ref :: S.PhaseOf(View(), ref) == S.Aged(S.PhaseOf(old(View()), ref), now)
    {
      ghost var h := View();
      var pending := expired;
      ghost var closed: set<nat> := {};
      assert h == S.Without(h, {});
      while pending != {}
        invariant S.Inv(View()) && View() == S.Without(h, closed)
        invariant pending <= h.expired && closed == S.AllDue(h, now) - pending
        decreases pending
      {
        var ref :| ref in pending;
        assert ref in expired && ref in objs;
        if now > objs[ref].expires {
          S.WithoutMore(h, closed, ref);
          CloseExpired(ref);
          closed := closed + {ref};
        }
        pending := pending - {ref};
      }
      S.WithoutDueAges(h, now);
    }
  }
}
